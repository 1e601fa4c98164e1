/**
 The bounded, line-oriented tail of a text stream: chunks arrive split anywhere, complete
 lines are committed, and the oldest committed lines go when either cap is exceeded.
 */
module LogRing {

  // ---- sizes ----

  /** The bytes of one code point in UTF-8. */
  function CharBytes(c: char): nat {
    if c < 0x80 as char then 1 else if c < 0x800 as char then 2 else if c as int < 0x10000 then 3 else 4
  }

  function Pow2(n: nat): nat {
    if n == 0 then 1 else 2 * Pow2(n - 1)
  }

  /** How many bits of a code point fit into n bytes of UTF-8. */
  function PayloadBits(n: nat): nat {
    if n <= 1 then 7 else 5 * n + 1
  }

  /** A code point takes the fewest bytes whose payload holds it. */
  lemma FewestBytes(c: char)
    ensures var n := CharBytes(c);
            && 1 <= n <= 4 && (c as int) < Pow2(PayloadBits(n))
            && forall k :: 1 <= k < n ==> Pow2(PayloadBits(k)) <= c as int
  {
    assert Pow2(7) == 0x80;
    assert Pow2(11) == 0x800 by { assert Pow2(9) == 0x200; }
    assert Pow2(16) == 0x10000 by { assert Pow2(13) == 0x2000; assert Pow2(15) == 0x8000; }
    assert Pow2(21) == 0x200000 by { assert Pow2(18) == 0x40000; assert Pow2(20) == 0x100000; }
  }

  function ByteLen(s: string): nat {
    if s == [] then 0 else ByteLen(s[..|s| - 1]) + CharBytes(s[|s| - 1])
  }

  /** The bytes of retained lines, one newline each. */
  function Size(lines: seq<string>): nat {
    if lines == [] then 0 else ByteLen(lines[0]) + 1 + Size(lines[1..])
  }

  lemma {:induction false} SizeMore(lines: seq<string>, line: string)
    ensures Size(lines + [line]) == Size(lines) + ByteLen(line) + 1
  {
    if lines == [] {
      assert lines + [line] == [line];
    } else {
      assert (lines + [line])[1..] == lines[1..] + [line];
      SizeMore(lines[1..], line);
    }
  }

  // ---- retention ----

  datatype Caps = Caps(maxLines: int, maxBytes: int) {
    ghost predicate Valid() {
      maxLines >= 1 && maxBytes >= 1
    }
  }

  /** What may be retained: few enough lines, and few enough bytes unless it is a single line. */
  predicate Fits(caps: Caps, lines: seq<string>) {
    |lines| <= caps.maxLines && (Size(lines) <= caps.maxBytes || |lines| <= 1)
  }

  /** `kept` is the longest suffix of all the lines that fits. */
  ghost predicate IsTail(caps: Caps, all: seq<string>, kept: seq<string>) {
    Covers(caps, all, kept) && Fits(caps, kept)
  }

  /** `kept` is a suffix of all the lines, and no longer one fits. */
  ghost predicate Covers(caps: Caps, all: seq<string>, kept: seq<string>) {
    && |kept| <= |all| && kept == all[|all| - |kept|..]
    && forall k :: 0 <= k < |all| - |kept| ==> !Fits(caps, all[k..])
  }

  lemma FitsRest(caps: Caps, lines: seq<string>, line: string)
    requires Fits(caps, lines + [line])
    ensures Fits(caps, lines)
  {
    SizeMore(lines, line);
  }

  /** What fits is decided by the lines alone. */
  lemma TailUnique(caps: Caps, all: seq<string>, s: seq<string>, t: seq<string>)
    requires IsTail(caps, all, s) && IsTail(caps, all, t)
    ensures s == t
  {
    assert s == all[|all| - |s|..] && t == all[|all| - |t|..];
  }

  /** With one more line, only suffixes of what was kept can still fit before it. */
  lemma CoversMore(caps: Caps, all: seq<string>, kept: seq<string>, line: string)
    requires Covers(caps, all, kept)
    ensures Covers(caps, all + [line], kept + [line])
  {
    forall k | 0 <= k < |all| - |kept| ensures !Fits(caps, (all + [line])[k..]) {
      assert (all + [line])[k..] == all[k..] + [line];
      if Fits(caps, all[k..] + [line]) {
        FitsRest(caps, all[k..], line);
      }
    }
  }

  lemma CoversLess(caps: Caps, all: seq<string>, kept: seq<string>)
    requires Covers(caps, all, kept) && !Fits(caps, kept) && kept != []
    ensures Covers(caps, all, kept[1..]) && Size(kept) == ByteLen(kept[0]) + 1 + Size(kept[1..])
  {
  }

  // ---- lines ----

  /** The index of the first newline, or the length when there is none. */
  function NewlineAt(text: string): (i: nat)
    ensures i <= |text| && (i < |text| ==> text[i] == '\n')
    ensures forall j :: 0 <= j < i ==> text[j] != '\n'
  {
    if text == [] || text[0] == '\n' then 0 else 1 + NewlineAt(text[1..])
  }

  /** The newline-free stretches of a text, the unterminated last one included. */
  function Stretches(text: string): (r: seq<string>)
    ensures r != []
    decreases |text|
  {
    var i := NewlineAt(text);
    if i == |text| then [text] else [text[..i]] + Stretches(text[i + 1..])
  }

  /** A line without the carriage return of a CRLF ending. */
  function Stripped(line: string): string {
    if line != [] && line[|line| - 1] == '\r' then line[..|line| - 1] else line
  }

  function AllStripped(stretches: seq<string>): seq<string> {
    if stretches == [] then [] else AllStripped(stretches[..|stretches| - 1]) + [Stripped(stretches[|stretches| - 1])]
  }

  /** The complete lines of a text. */
  function Lines(text: string): seq<string> {
    AllStripped(Front(Stretches(text)))
  }

  /** The unterminated end of a text. */
  function Rest(text: string): string {
    Last(Stretches(text))
  }

  function Front<T>(s: seq<T>): seq<T>
    requires s != []
  {
    s[..|s| - 1]
  }

  function Last<T>(s: seq<T>): T
    requires s != []
  {
    s[|s| - 1]
  }

  lemma FrontLast<T>(x: T, s: seq<T>)
    requires s != []
    ensures Front([x] + s) == [x] + Front(s) && Last([x] + s) == Last(s)
  {
  }

  lemma StretchesFirst(text: string)
    ensures var i := NewlineAt(text);
            && Stretches(text) == (if i == |text| then [text] else [text[..i]] + Stretches(text[i + 1..]))
  {
  }

  predicate NewlineFree(text: string) {
    forall i :: 0 <= i < |text| ==> text[i] != '\n'
  }

  lemma {:induction false} StretchesFree(text: string)
    ensures forall s :: s in Stretches(text) ==> NewlineFree(s)
    decreases |text|
  {
    var i := NewlineAt(text);
    if i < |text| {
      StretchesFree(text[i + 1..]);
    }
  }

  lemma FirstNewline(text: string, i: nat)
    requires i <= |text| && NewlineFree(text[..i]) && (i < |text| ==> text[i] == '\n')
    ensures NewlineAt(text) == i
  {
    var n := NewlineAt(text);
    assert forall j :: 0 <= j < i ==> text[..i][j] == text[j];
  }

  /** Cutting a text anywhere and carrying the unterminated end over cuts it the same. */
  lemma {:induction false} StretchesConcat(a: string, b: string)
    ensures Stretches(a + b) == Front(Stretches(a)) + Stretches(Rest(a) + b)
    decreases |a|
  {
    hide Stretches, NewlineAt, Front, Last;
    StretchesFirst(a);
    var i := NewlineAt(a);
    if i == |a| {
      WholeFront(a);
      assert [] + Stretches(a + b) == Stretches(a + b);
    } else {
      var rest := a[i + 1..];
      assert (a + b)[..i] == a[..i] && (a + b)[i] == a[i] && (a + b)[i + 1..] == rest + b;
      FirstNewline(a + b, i);
      StretchesFirst(a + b);
      StretchesConcat(rest, b);
      FrontLast(a[..i], Stretches(rest));
      assert [a[..i]] + (Front(Stretches(rest)) + Stretches(Rest(rest) + b)) ==
             ([a[..i]] + Front(Stretches(rest))) + Stretches(Rest(rest) + b);
    }
  }

  lemma WholeFront(a: string)
    ensures Front([a]) == [] && Last([a]) == a
  {
  }

  lemma {:induction false} StrippedConcat(s: seq<string>, t: seq<string>)
    ensures AllStripped(s + t) == AllStripped(s) + AllStripped(t)
  {
    if t == [] {
      assert s + t == s;
    } else {
      assert Front(s + t) == s + Front(t) && Last(s + t) == Last(t);
      StrippedConcat(s, Front(t));
      hide Stripped;
    }
  }

  lemma LinesConcat(a: string, b: string)
    ensures Lines(a + b) == Lines(a) + Lines(Rest(a) + b) && Rest(a + b) == Rest(Rest(a) + b)
  {
    StretchesConcat(a, b);
    var f, g := Front(Stretches(a)), Stretches(Rest(a) + b);
    assert Front(f + g) == f + Front(g);
    StrippedConcat(f, Front(g));
  }

  lemma LinesFirst(text: string)
    requires NewlineAt(text) < |text|
    ensures var i := NewlineAt(text);
            Lines(text) == [Stripped(text[..i])] + Lines(text[i + 1..]) && Rest(text) == Rest(text[i + 1..])
  {
    hide Stretches, NewlineAt, Front, Last, AllStripped;
    StretchesFirst(text);
    var i := NewlineAt(text);
    var g := Stretches(text[i + 1..]);
    FrontLast(text[..i], g);
    StrippedConcat([text[..i]], Front(g));
    StrippedOne(text[..i]);
  }

  lemma StrippedOne(line: string)
    ensures AllStripped([line]) == [Stripped(line)]
  {
    WholeFront(line);
  }

  /** A line, its newline and what follows. */
  lemma LineThen(line: string, text: string)
    requires NewlineFree(line)
    ensures var whole := line + ['\n'] + text;
            NewlineAt(whole) == |line| && Lines(whole) == [Stripped(line)] + Lines(text) && Rest(whole) == Rest(text)
  {
    var whole := line + ['\n'] + text;
    assert whole[..|line|] == line && whole[|line| + 1..] == text;
    FirstNewline(whole, |line|);
    LinesFirst(whole);
  }

  lemma LinesNone(text: string)
    requires NewlineFree(text)
    ensures Lines(text) == [] && Rest(text) == text
  {
    assert text[..|text|] == text;
    FirstNewline(text, |text|);
  }

  // ---- chunks ----

  /** What one chunk commits, given the carried text with the chunk after it: its complete
      lines, and an unterminated end that alone exceeds the byte cap. */
  function Commits(maxBytes: int, text: string): seq<string> {
    Lines(text) + if ByteLen(Rest(text)) > maxBytes then [Rest(text)] else []
  }

  function Carries(maxBytes: int, text: string): string {
    if ByteLen(Rest(text)) > maxBytes then [] else Rest(text)
  }

  datatype Fed = Fed(committed: seq<string>, partial: string)

  /** Everything committed over a run of chunks, and the text carried at its end. */
  function FeedAll(maxBytes: int, chunks: seq<string>): Fed {
    if chunks == [] then Fed([], [])
    else
      var before := FeedAll(maxBytes, Front(chunks));
      var text := before.partial + Last(chunks);
      Fed(before.committed + Commits(maxBytes, text), Carries(maxBytes, text))
  }

  function Concat(chunks: seq<string>): string {
    if chunks == [] then [] else Concat(Front(chunks)) + Last(chunks)
  }

  /** No newline-free stretch exceeds the byte cap. */
  ghost predicate Narrow(maxBytes: int, text: string) {
    forall s :: s in Stretches(text) ==> ByteLen(s) <= maxBytes
  }

  lemma {:induction false} ByteLenPrefix(a: string, b: string)
    ensures ByteLen(a) <= ByteLen(a + b)
  {
    if b == [] {
      assert a + b == a;
    } else {
      assert Front(a + b) == a + Front(b);
      ByteLenPrefix(a, Front(b));
    }
  }

  lemma {:induction false} StartOfFirst(a: string, b: string)
    requires NewlineFree(a)
    ensures a <= Stretches(a + b)[0]
  {
    var i := NewlineAt(a + b);
    assert forall j :: 0 <= j < |a| ==> (a + b)[j] == a[j];
  }

  /** A prefix of a narrow text is narrow. */
  lemma NarrowPrefix(maxBytes: int, a: string, b: string)
    requires Narrow(maxBytes, a + b)
    ensures Narrow(maxBytes, a)
  {
    StretchesConcat(a, b);
    StretchesFree(a);
    forall s | s in Stretches(a) ensures ByteLen(s) <= maxBytes {
      if s in Front(Stretches(a)) {
        assert s in Stretches(a + b);
      } else {
        assert s == Rest(a);
        var first := Stretches(Rest(a) + b)[0];
        StartOfFirst(Rest(a), b);
        assert first in Stretches(a + b);
        ByteLenPrefix(s, first[|s|..]);
        assert s + first[|s|..] == first;
      }
    }
  }

  /** However a narrow text is cut into chunks, exactly its complete lines are committed and
      its unterminated end is carried. */
  lemma {:induction false} ChunkingInvisible(maxBytes: int, chunks: seq<string>)
    requires Narrow(maxBytes, Concat(chunks))
    ensures FeedAll(maxBytes, chunks) == Fed(Lines(Concat(chunks)), Rest(Concat(chunks)))
  {
    if chunks == [] {
      LinesNone([]);
    } else {
      var a, b := Concat(Front(chunks)), Last(chunks);
      NarrowPrefix(maxBytes, a, b);
      ChunkingInvisible(maxBytes, Front(chunks));
      LinesConcat(a, b);
    }
  }

  // ---- the converse: a stretch over the cap makes chunking visible ----

  lemma StretchAt(text: string, k: nat)
    requires k < |Stretches(text)| - 1
    ensures var i := NewlineAt(text);
            && i < |text| && NewlineFree(text[..i]) && text == text[..i] + ['\n'] + text[i + 1..]
            && if k == 0 then Stretches(text)[k] == text[..i]
               else k - 1 < |Stretches(text[i + 1..])| - 1 && Stretches(text)[k] == Stretches(text[i + 1..])[k - 1]
  {
    hide Stretches;
    StretchesFirst(text);
  }

  lemma {:induction false} SplitAtStretch(text: string, k: nat) returns (before: string, after: string)
    requires k < |Stretches(text)| - 1
    ensures text == before + Stretches(text)[k] + ['\n'] + after
    ensures Rest(before) == [] && NewlineFree(Stretches(text)[k])
    decreases |text|
  {
    hide Rest, Lines, Stretches;
    StretchAt(text, k);
    var i := NewlineAt(text);
    if k == 0 {
      before, after := [], text[i + 1..];
      LinesNone([]);
    } else {
      var rest;
      rest, after := SplitAtStretch(text[i + 1..], k - 1);
      before := text[..i] + ['\n'] + rest;
      LineThen(text[..i], rest);
    }
  }

  /** Cut just before the newline that ends an overlong stretch, the text commits exactly one
      more line than when it comes whole. */
  lemma CutCommitsMore(maxBytes: int, before: string, line: string, after: string)
    requires Rest(before) == [] && NewlineFree(line) && ByteLen(line) > maxBytes >= 0
    ensures |FeedAll(maxBytes, [before + line, ['\n'] + after]).committed| ==
            |Commits(maxBytes, before + line + ['\n'] + after)| + 1
  {
    var one, two := before + line, ['\n'] + after;
    TwoChunks(maxBytes, one, two);
    hide Rest, Lines, FeedAll, ByteLen, Stretches, NewlineAt, AllStripped;
    LinesConcat(before, line);
    LinesNone(line);
    assert [] + line == line;
    assert [] + two == two && [] + ['\n'] + after == two;
    LineThen([], after);
    LineThen(line, after);
    LinesConcat(before, line + two);
    assert line + ['\n'] + after == line + two && [] + (line + two) == line + two;
    assert before + (line + two) == before + line + ['\n'] + after;
  }

  lemma TwoChunks(maxBytes: int, one: string, two: string)
    ensures Concat([one, two]) == one + two
    ensures var next := Carries(maxBytes, one) + two;
            FeedAll(maxBytes, [one, two]) ==
            Fed(Commits(maxBytes, one) + Commits(maxBytes, next), Carries(maxBytes, next))
  {
    assert Front([one, two]) == [one] && Front([one]) == [];
    assert [] + one == one && Concat([one]) == Concat([]) + one;
    OneChunk(maxBytes, one);
    hide Commits, Carries;
  }

  lemma OneChunk(maxBytes: int, text: string)
    ensures Concat([text]) == text && FeedAll(maxBytes, [text]) == Fed(Commits(maxBytes, text), Carries(maxBytes, text))
  {
    assert Front([text]) == [] && [] + text == text;
    assert FeedAll(maxBytes, []) == Fed([], []);
    assert [] + Commits(maxBytes, text) == Commits(maxBytes, text);
  }

  // ---- exactly which texts show how they were cut ----

  /** Every terminated stretch is within the byte cap, and so is the unterminated one without
      its last character. */
  ghost predicate Mild(maxBytes: int, text: string) {
    && (forall s :: s in Front(Stretches(text)) ==> ByteLen(s) <= maxBytes)
    && (Rest(text) == [] || ByteLen(Front(Rest(text))) <= maxBytes)
  }

  /** What a carried text commits on its own: nothing. */
  lemma CarriedQuiet(maxBytes: int, text: string)
    requires maxBytes >= 0
    ensures Commits(maxBytes, Carries(maxBytes, text)) == []
    ensures Carries(maxBytes, Carries(maxBytes, text)) == Carries(maxBytes, text)
  {
    StretchesFree(text);
    hide Stretches, Lines;
    LinesNone(Carries(maxBytes, text));
  }

  /** Short of its last character, a mild text has no stretch over the cap. */
  lemma MildPrefix(maxBytes: int, a: string, b: string)
    requires Mild(maxBytes, a + b) && b != []
    ensures Narrow(maxBytes, a)
  {
    var f, tail := Front(Stretches(a)), Stretches(Rest(a) + b);
    StretchesConcat(a, b);
    FrontConcat(f, tail);
    StretchesFree(a);
    StartOfFirst(Rest(a), b);
    LastStretch(a);
    forall s | s in Stretches(a) ensures ByteLen(s) <= maxBytes {
      hide ByteLen, Stretches, Rest;
      if s !in f {
        assert s == Rest(a);
        RestShort(maxBytes, s, b, tail);
      }
    }
  }

  lemma LastStretch(text: string)
    ensures forall s :: s in Stretches(text) ==> s in Front(Stretches(text)) || s == Rest(text)
  {
  }

  lemma FrontConcat<T>(f: seq<T>, tail: seq<T>)
    requires tail != []
    ensures Front(f + tail) == f + Front(tail) && Last(f + tail) == Last(tail)
    ensures forall x :: x in Front(f + tail) <==> x in f || x in Front(tail)
  {
    assert Front(f + tail) == f + Front(tail);
  }

  /** The stretch that a later chunk continues is short when the continued one is. */
  lemma RestShort(maxBytes: int, s: string, b: string, tail: seq<string>)
    requires b != [] && tail == Stretches(s + b) && s <= tail[0]
    requires forall x :: x in Front(tail) ==> ByteLen(x) <= maxBytes
    requires Last(tail) == [] || ByteLen(Front(Last(tail))) <= maxBytes
    ensures ByteLen(s) <= maxBytes
  {
    if |tail| > 1 {
      assert Front(tail)[0] == tail[0];
      ByteLenPrefix(s, tail[0][|s|..]);
      assert s + tail[0][|s|..] == tail[0];
    } else {
      StretchesFirst(s + b);
      assert Last(tail) == s + b && Front(s + b) == s + Front(b);
      ByteLenPrefix(s, Front(b));
    }
  }

  /** However a mild text is cut, it commits and carries what it does when it comes whole. */
  lemma {:induction false} MildOutcome(maxBytes: int, chunks: seq<string>)
    requires maxBytes >= 1 && Mild(maxBytes, Concat(chunks))
    ensures FeedAll(maxBytes, chunks) == Fed(Commits(maxBytes, Concat(chunks)), Carries(maxBytes, Concat(chunks)))
  {
    hide Stretches, Lines, Rest, Mild;
    if chunks == [] {
      LinesNone([]);
    } else {
      var a, b := Concat(Front(chunks)), Last(chunks);
      if b == [] {
        assert a + b == a;
        MildOutcome(maxBytes, Front(chunks));
        assert Carries(maxBytes, a) + b == Carries(maxBytes, a);
        CarriedQuiet(maxBytes, a);
        hide Commits, Carries;
        assert Commits(maxBytes, a) + [] == Commits(maxBytes, a);
      } else {
        MildPrefix(maxBytes, a, b);
        ChunkingInvisible(maxBytes, Front(chunks));
        LinesConcat(a, b);
        WholeCommits(maxBytes, a, b);
      }
    }
  }

  lemma WholeCommits(maxBytes: int, a: string, b: string)
    ensures Commits(maxBytes, a + b) == Lines(a) + Commits(maxBytes, Rest(a) + b)
    ensures Carries(maxBytes, a + b) == Carries(maxBytes, Rest(a) + b)
  {
    LinesConcat(a, b);
    hide Lines, Rest;
  }

  /** Holding back the last character of an unterminated text. */
  lemma AllButLast(text: string)
    requires Rest(text) != []
    ensures text != [] && Lines(Front(text)) == Lines(text) && Rest(Front(text)) == Front(Rest(text))
  {
    if text == [] {
      LinesNone([]);
    } else {
      hide Lines, Rest, Stretches;
      var f, c := Front(text), Last(text);
      assert f + [c] == text;
      LinesConcat(f, [c]);
      RestFree(f);
      LinesNone([]);
      assert Rest(f) + [c] + [] == Rest(f) + [c] && Front(Rest(f) + [c]) == Rest(f) && Lines(f) + [] == Lines(f);
      if c == '\n' {
        LineThen(Rest(f), []);
      } else {
        LinesNone(Rest(f) + [c]);
      }
    }
  }

  lemma RestFree(text: string)
    ensures NewlineFree(Rest(text))
  {
    StretchesFree(text);
  }

  /** A text that is not mild, cut so that it commits something else than when it comes whole. */
  lemma NotMildShows(maxBytes: int, text: string) returns (chunks: seq<string>)
    requires maxBytes >= 1 && !Mild(maxBytes, text)
    ensures Concat(chunks) == text && FeedAll(maxBytes, chunks).committed != Commits(maxBytes, text)
  {
    hide Lines, Rest, FeedAll, ByteLen, Stretches, NewlineFree;
    if s :| s in Front(Stretches(text)) && ByteLen(s) > maxBytes {
      var k :| 0 <= k < |Stretches(text)| - 1 && Front(Stretches(text))[k] == s;
      var before, after := SplitAtStretch(text, k);
      CutCommitsMore(maxBytes, before, s, after);
      chunks := [before + s, ['\n'] + after];
      TwoChunks(maxBytes, before + s, ['\n'] + after);
      assert before + s + (['\n'] + after) == before + s + ['\n'] + after;
    } else {
      var r := Rest(text);
      AllButLast(text);
      chunks := [Front(text), [Last(text)]];
      TwoChunks(maxBytes, Front(text), [Last(text)]);
      assert Front(text) + [Last(text)] == text;
      GrowsBytes(r);
      var n := |Lines(text)|;
      assert FeedAll(maxBytes, chunks).committed[n] == Front(r) && Commits(maxBytes, text)[n] == r;
      assert |Front(r)| != |r|;
    }
  }

  lemma GrowsBytes(r: string)
    requires r != []
    ensures ByteLen(Front(r)) <= ByteLen(r)
  {
    assert Front(r) + [Last(r)] == r;
    ByteLenPrefix(Front(r), [Last(r)]);
  }

  /** What a text commits and carries is the same for every cutting exactly when the text is
      mild. */
  lemma ChunkingInvisibleIff(maxBytes: int, text: string)
    requires maxBytes >= 1
    ensures Mild(maxBytes, text) <==>
            forall c, d :: Concat(c) == text && Concat(d) == text ==> FeedAll(maxBytes, c) == FeedAll(maxBytes, d)
  {
    hide FeedAll, Concat, Mild, Commits, Carries;
    if Mild(maxBytes, text) {
      forall c, d | Concat(c) == text && Concat(d) == text ensures FeedAll(maxBytes, c) == FeedAll(maxBytes, d) {
        MildOutcome(maxBytes, c);
        MildOutcome(maxBytes, d);
      }
    } else {
      var chunks := NotMildShows(maxBytes, text);
      OneChunk(maxBytes, text);
    }
  }

  // ---- line endings ----

  /** A line that ends in a carriage return and a newline is the line that ends in a newline. */
  lemma CarriageReturns(line: string, rest: string)
    requires NewlineFree(line) && (line != [] ==> Last(line) != '\r')
    ensures Lines(line + ['\r', '\n'] + rest) == Lines(line + ['\n'] + rest) == [line] + Lines(rest)
  {
    LineThen(line, rest);
    LineThen(line + ['\r'], rest);
    assert line + ['\r', '\n'] + rest == (line + ['\r']) + ['\n'] + rest;
    assert (line + ['\r'])[..|line|] == line;
  }

  // ---- the ring in place ----

  class Ring {
    const caps: Caps
    var buf: seq<string>
    var bytes: int
    var partial: string
    ghost var committed: seq<string>

    ghost predicate Valid()
      reads this
    {
      && caps.Valid() && IsTail(caps, committed, buf) && bytes == Size(buf)
      && NewlineFree(partial) && ByteLen(partial) <= caps.maxBytes
    }

    /** Caps below one count as one. */
    constructor (maxLines: int, maxBytes: int)
      ensures Valid() && committed == [] && partial == []
      ensures caps.maxLines == (if maxLines < 1 then 1 else maxLines)
      ensures caps.maxBytes == (if maxBytes < 1 then 1 else maxBytes)
    {
      caps := Caps(if maxLines < 1 then 1 else maxLines, if maxBytes < 1 then 1 else maxBytes);
      buf, bytes, partial, committed := [], 0, [], [];
    }

    /** Commit one line and drop the oldest ones until the rest fits. */
    method Append(line: string)
      requires caps.Valid() && IsTail(caps, committed, buf) && bytes == Size(buf)
      modifies this`buf, this`bytes, this`committed
      ensures committed == old(committed) + [line] && IsTail(caps, committed, buf) && bytes == Size(buf)
    {
      hide ByteLen, Size, Covers;
      SizeMore(buf, line);
      CoversMore(caps, committed, buf, line);
      committed := committed + [line];
      buf := buf + [line];
      bytes := bytes + ByteLen(line) + 1;
      while |buf| > caps.maxLines || (bytes > caps.maxBytes && |buf| > 1)
        invariant committed == old(committed) + [line] && 1 <= |buf| && Covers(caps, committed, buf)
        invariant bytes == Size(buf)
        decreases |buf|
      {
        CoversLess(caps, committed, buf);
        var removed := buf[0];
        buf := buf[1..];
        bytes := bytes - (ByteLen(removed) + 1);
      }
    }

    /** Commit every complete line of the carried text. */
    method CommitLines()
      requires caps.Valid() && IsTail(caps, committed, buf) && bytes == Size(buf)
      modifies this`buf, this`bytes, this`partial, this`committed
      ensures IsTail(caps, committed, buf) && bytes == Size(buf)
      ensures committed == old(committed) + Lines(old(partial)) && partial == Rest(old(partial)) && NewlineFree(partial)
    {
      hide Lines, Rest, ByteLen, Stretches, IsTail, Size;
      var nl := NewlineAt(partial);
      while nl < |partial|
        invariant nl == NewlineAt(partial)
        invariant IsTail(caps, committed, buf) && bytes == Size(buf)
        invariant committed + Lines(partial) == old(committed) + Lines(old(partial))
        invariant Rest(partial) == Rest(old(partial))
        decreases |partial|
      {
        LinesFirst(partial);
        var line := partial[..nl];
        ghost var next := [Stripped(line)] + Lines(partial[nl + 1..]);
        assert committed + next == (committed + [Stripped(line)]) + Lines(partial[nl + 1..]);
        if line != [] && line[|line| - 1] == '\r' {
          line := line[..|line| - 1];
        }
        partial := partial[nl + 1..];
        Append(line);
        nl := NewlineAt(partial);
      }
      LinesNone(partial);
      assert committed + [] == committed;
    }

    /** Feed one chunk. */
    method Push(text: string)
      requires Valid()
      modifies this`buf, this`bytes, this`partial, this`committed
      ensures Valid()
      ensures committed == old(committed) + Commits(caps.maxBytes, old(partial) + text)
      ensures partial == Carries(caps.maxBytes, old(partial) + text)
    {
      hide Lines, Rest, Stretches, IsTail, Size;
      if |text| == 0 {
        assert partial + text == partial;
        LinesNone(partial);
        assert Commits(caps.maxBytes, partial) == [] && Carries(caps.maxBytes, partial) == partial;
        return;
      }
      partial := partial + text;
      CommitLines();
      if ByteLen(partial) > caps.maxBytes {
        var line := partial;
        partial := [];
        Append(line);
      }
    }

    /** All retained lines and the unterminated end, oldest first. */
    function Retained(): seq<string>
      reads this
    {
      if |partial| != 0 then buf + [partial] else buf
    }

    /** The last `n` retained lines, fewer when the ring holds fewer. */
    function Tail(n: int): (r: seq<string>)
      reads this
      ensures |r| <= |Retained()| && r == Retained()[|Retained()| - |r|..]
      ensures n >= 0 ==> |r| <= n && (|r| == n || r == Retained())
      ensures n <= 0 ==> r == []
    {
      var all := Retained();
      if n <= 0 then [] else if |all| <= n then all else all[|all| - n..]
    }
  }

  /** Two rings with the same caps, fed one mild text in any two cuttings, end up equal. */
  lemma SameTextSameRing(caps: Caps, one: seq<string>, two: seq<string>, s: seq<string>, t: seq<string>)
    requires caps.Valid() && Concat(one) == Concat(two) && Mild(caps.maxBytes, Concat(one))
    requires IsTail(caps, FeedAll(caps.maxBytes, one).committed, s)
    requires IsTail(caps, FeedAll(caps.maxBytes, two).committed, t)
    ensures s == t && FeedAll(caps.maxBytes, one).partial == FeedAll(caps.maxBytes, two).partial
  {
    MildOutcome(caps.maxBytes, one);
    MildOutcome(caps.maxBytes, two);
    TailUnique(caps, Commits(caps.maxBytes, Concat(one)), s, t);
  }
}
