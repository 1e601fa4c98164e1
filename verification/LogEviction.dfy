/**
 What a log ring shows after a text, whatever the chunks it came in: which texts leave every
 ring with given caps in one state, when lines that differ may also be evicted.
 */
module LogEviction {
  import opened LogRing

  /** The longest suffix of the lines that fits. */
  function Kept(caps: Caps, all: seq<string>): seq<string> {
    if all == [] || Fits(caps, all) then all else Kept(caps, all[1..])
  }

  /** What a ring with these caps holds after the chunks. */
  function Shown(caps: Caps, chunks: seq<string>): Fed {
    var fed := FeedAll(caps.maxBytes, chunks);
    Fed(Kept(caps, fed.committed), fed.partial)
  }

  /** The ring's lines are these: it keeps the longest suffix that fits. */
  lemma {:induction false} KeptIsTail(caps: Caps, all: seq<string>)
    requires caps.Valid()
    ensures IsTail(caps, all, Kept(caps, all))
  {
    if all != [] && !Fits(caps, all) {
      var rest, kept := all[1..], Kept(caps, all[1..]);
      KeptIsTail(caps, rest);
      assert kept == all[|all| - |kept|..];
      forall k | 0 <= k < |all| - |kept| ensures !Fits(caps, all[k..]) {
        assert all[0..] == all;
        assert k > 0 ==> all[k..] == rest[k - 1..];
      }
    } else {
      assert all[0..] == all;
    }
  }

  // ---- sizes ----

  lemma {:induction false} SizeConcat(a: seq<string>, b: seq<string>)
    ensures Size(a + b) == Size(a) + Size(b) && Size(a) >= |a|
  {
    if a == [] {
      assert a + b == b;
    } else {
      assert (a + b)[1..] == a[1..] + b;
      SizeConcat(a[1..], b);
    }
  }

  lemma SizeOne(line: string)
    ensures Size([line]) == ByteLen(line) + 1
  {
    assert [line][1..] == [];
  }

  // ---- what eviction hides ----

  /** What precedes these lines is evicted even when it is a single empty line. */
  predicate Full(caps: Caps, lines: seq<string>) {
    lines != [] && !Fits(caps, [""] + lines)
  }

  lemma {:induction false} KeptAfter(caps: Caps, before: seq<string>, lines: seq<string>)
    requires Full(caps, lines)
    ensures Kept(caps, before + lines) == Kept(caps, lines)
  {
    if before == [] {
      assert before + lines == lines;
    } else {
      SizeConcat(before, lines);
      SizeConcat([""], lines);
      SizeOne("");
      assert !Fits(caps, before + lines);
      assert (before + lines)[1..] == before[1..] + lines;
      KeptAfter(caps, before[1..], lines);
    }
  }

  /** A line as long as the cap is evicted by any other line after it. */
  lemma {:induction false} KeptPast(caps: Caps, before: seq<string>, line: string, lines: seq<string>)
    requires lines != [] && ByteLen(line) >= caps.maxBytes
    ensures Kept(caps, before + [line] + lines) == Kept(caps, lines)
  {
    SizeConcat(before + [line], lines);
    SizeConcat(before, [line]);
    SizeOne(line);
    assert !Fits(caps, before + [line] + lines);
    if before == [] {
      assert (before + [line] + lines)[1..] == lines;
    } else {
      assert (before + [line] + lines)[1..] == before[1..] + [line] + lines;
      KeptPast(caps, before[1..], line, lines);
    }
  }

  lemma {:induction false} KeptShort(caps: Caps, all: seq<string>)
    ensures |Kept(caps, all)| <= |all|
  {
    if all != [] && !Fits(caps, all) {
      KeptShort(caps, all[1..]);
    }
  }

  lemma {:induction false} KeptAtLeast(caps: Caps, before: seq<string>, lines: seq<string>)
    requires Fits(caps, lines)
    ensures |Kept(caps, before + lines)| >= |lines|
  {
    if before == [] {
      assert before + lines == lines;
    } else {
      assert (before + lines)[1..] == before[1..] + lines;
      KeptAtLeast(caps, before[1..], lines);
    }
  }

  /** The last line is always kept. */
  lemma {:induction false} KeptLast(caps: Caps, all: seq<string>)
    requires caps.Valid() && all != []
    ensures Kept(caps, all) != [] && Last(Kept(caps, all)) == Last(all)
  {
    if !Fits(caps, all) {
      assert |all| > 1;
      KeptLast(caps, all[1..]);
    }
  }

  // ---- overlong lines ----

  /** The text has this terminated line, longer than the byte cap. */
  ghost predicate Overlong(maxBytes: int, text: string, before: string, line: string, after: string) {
    && text == before + line + ['\n'] + after
    && Rest(before) == [] && NewlineFree(line) && ByteLen(line) > maxBytes
  }

  /** A line, its newline and what follows, as they come in one chunk. */
  lemma LineCommits(maxBytes: int, line: string, text: string)
    requires NewlineFree(line)
    ensures Commits(maxBytes, line + ['\n'] + text) == [Stripped(line)] + Commits(maxBytes, text)
    ensures Carries(maxBytes, line + ['\n'] + text) == Carries(maxBytes, text)
  {
    LineThen(line, text);
    hide Lines, Rest, ByteLen, Stretches;
    var end := if ByteLen(Rest(text)) > maxBytes then [Rest(text)] else [];
    assert ([Stripped(line)] + Lines(text)) + end == [Stripped(line)] + (Lines(text) + end);
  }

  /** What a text with such a line commits when it comes whole. */
  lemma WholeOverlong(maxBytes: int, text: string, before: string, line: string, after: string)
    requires Overlong(maxBytes, text, before, line, after)
    ensures Commits(maxBytes, text) == Lines(before) + [Stripped(line)] + Commits(maxBytes, after)
    ensures Carries(maxBytes, text) == Carries(maxBytes, after)
  {
    hide Rest, Lines, ByteLen, Stretches, Commits, Carries;
    var tail := line + ['\n'] + after;
    assert text == before + tail && [] + tail == tail;
    WholeCommits(maxBytes, before, tail);
    LineCommits(maxBytes, line, after);
    assert Lines(before) + ([Stripped(line)] + Commits(maxBytes, after)) ==
           Lines(before) + [Stripped(line)] + Commits(maxBytes, after);
  }

  /** What it commits when it is cut just before the newline. */
  lemma CutOverlong(maxBytes: int, text: string, before: string, line: string, after: string)
    requires maxBytes >= 1 && Overlong(maxBytes, text, before, line, after)
    ensures var cut := [before + line, ['\n'] + after];
            && Concat(cut) == text
            && FeedAll(maxBytes, cut) ==
               Fed(Lines(before) + [line] + ([""] + Commits(maxBytes, after)), Carries(maxBytes, after))
  {
    hide Rest, Lines, ByteLen, Stretches, Commits, Carries, FeedAll, Concat;
    var one, two := before + line, ['\n'] + after;
    TwoChunks(maxBytes, one, two);
    HeldBack(maxBytes, before, line);
    assert one + two == text;
    assert [] + two == two && [] + ['\n'] + after == two;
    LineCommits(maxBytes, [], after);
  }

  /** An overlong line whose newline has not come is committed as it is. */
  lemma HeldBack(maxBytes: int, before: string, line: string)
    requires Rest(before) == [] && NewlineFree(line) && ByteLen(line) > maxBytes
    ensures Commits(maxBytes, before + line) == Lines(before) + [line] && Carries(maxBytes, before + line) == []
  {
    LinesConcat(before, line);
    LinesNone(line);
    hide Rest, Lines, ByteLen, Stretches;
    assert [] + line == line && Lines(before) + [] == Lines(before);
  }

  lemma StrippedBytes(line: string)
    ensures ByteLen(Stripped(line)) >= ByteLen(line) - 1
  {
  }

  /** The last overlong line of a text that has one. */
  lemma {:induction false} LastOverlong(maxBytes: int, text: string)
    returns (before: string, line: string, after: string)
    requires exists s :: s in Front(Stretches(text)) && ByteLen(s) > maxBytes
    ensures Overlong(maxBytes, text, before, line, after) && Rest(after) == Rest(text)
    ensures forall s :: s in Front(Stretches(after)) ==> ByteLen(s) <= maxBytes
    decreases |text|
  {
    hide ByteLen, Stretches, Rest, Lines, NewlineAt;
    FrontFirst(text);
    var i := NewlineAt(text);
    var first, rest := text[..i], text[i + 1..];
    if exists s :: s in Front(Stretches(rest)) && ByteLen(s) > maxBytes {
      var b;
      b, line, after := LastOverlong(maxBytes, rest);
      before := first + ['\n'] + b;
      LineThen(first, b);
      LineThen(first, rest);
    } else {
      before, line, after := [], first, rest;
      LinesNone([]);
      LineThen(first, rest);
    }
  }

  lemma FrontFirst(text: string)
    ensures var i := NewlineAt(text);
            if i == |text| then Front(Stretches(text)) == []
            else
              && NewlineFree(text[..i]) && text == text[..i] + ['\n'] + text[i + 1..]
              && Front(Stretches(text)) == [text[..i]] + Front(Stretches(text[i + 1..]))
  {
    hide Stretches, Front;
    StretchesFirst(text);
    var i := NewlineAt(text);
    if i < |text| {
      AroundNewline(text);
      FrontLast(text[..i], Stretches(text[i + 1..]));
    } else {
      WholeFront(text);
    }
  }

  lemma AroundNewline(text: string)
    requires NewlineAt(text) < |text|
    ensures var i := NewlineAt(text); NewlineFree(text[..i]) && text == text[..i] + ['\n'] + text[i + 1..]
  {
    SplitAt(text, NewlineAt(text));
    hide NewlineAt;
  }

  lemma SplitAt(s: string, i: nat)
    requires i < |s|
    ensures s == s[..i] + [s[i]] + s[i + 1..]
  {
  }

  // ---- a mild end decides what is committed last ----

  lemma NarrowMild(maxBytes: int, text: string)
    requires Narrow(maxBytes, text) && maxBytes >= 0
    ensures Mild(maxBytes, text) && Commits(maxBytes, text) == Lines(text) && Carries(maxBytes, text) == Rest(text)
  {
    LastStretch(text);
    assert Rest(text) in Stretches(text);
    if Rest(text) != [] {
      GrowsBytes(Rest(text));
    }
    hide ByteLen, Stretches, Lines;
    assert Lines(text) + [] == Lines(text);
  }

  /** Whatever came before a newline and however it was cut, a mild text after it commits and
      carries last what it does alone. */
  lemma {:induction false} EndsWith(maxBytes: int, chunks: seq<string>, head: string, after: string)
    returns (pre: seq<string>)
    requires maxBytes >= 1 && Concat(chunks) == head + ['\n'] + after && Mild(maxBytes, after)
    ensures FeedAll(maxBytes, chunks) == Fed(pre + Commits(maxBytes, after), Carries(maxBytes, after))
  {
    hide Stretches, Lines, Rest, Mild, Commits, Carries;
    var a, b := Concat(Front(chunks)), Last(chunks);
    var fed := FeedAll(maxBytes, Front(chunks));
    if |a| > |head| {
      var after1 := a[|head| + 1..];
      assert a == head + ['\n'] + after1 && after == after1 + b by {
        SamePrefix(a, b, head, after);
      }
      if b == [] {
        assert after1 == after;
        pre := EndsWith(maxBytes, Front(chunks), head, after);
        assert Carries(maxBytes, after) + b == Carries(maxBytes, after);
        CarriedQuiet(maxBytes, after);
        assert fed.committed + [] == fed.committed;
      } else {
        MildPrefix(maxBytes, after1, b);
        NarrowMild(maxBytes, after1);
        pre := EndsWith(maxBytes, Front(chunks), head, after1);
        WholeCommits(maxBytes, after1, b);
        var more := Commits(maxBytes, Rest(after1) + b);
        assert (pre + Lines(after1)) + more == pre + (Lines(after1) + more);
      }
    } else {
      var u := fed.partial + head[|a|..];
      assert fed.partial + b == u + ['\n'] + after by {
        CutInside(a, b, head, after, fed.partial);
      }
      EndedLine(u);
      WholeCommits(maxBytes, u + ['\n'], after);
      assert [] + after == after;
      pre := fed.committed + Lines(u + ['\n']);
      var more := Commits(maxBytes, after);
      assert fed.committed + (Lines(u + ['\n']) + more) == pre + more;
    }
  }

  lemma SamePrefix(a: string, b: string, head: string, after: string)
    requires a + b == head + ['\n'] + after && |a| > |head|
    ensures a == head + ['\n'] + a[|head| + 1..] && after == a[|head| + 1..] + b
  {
    var n, whole := |head|, a + b;
    assert a == whole[..|a|] && whole[..n] == head && whole[n] == '\n' && after == whole[n + 1..];
    assert whole[n + 1..] == a[n + 1..] + b;
  }

  lemma CutInside(a: string, b: string, head: string, after: string, partial: string)
    requires a + b == head + ['\n'] + after && |a| <= |head|
    ensures partial + b == partial + head[|a|..] + ['\n'] + after
  {
    var whole := a + b;
    assert b == whole[|a|..] == head[|a|..] + ['\n'] + after;
  }

  lemma EndedLine(u: string)
    ensures Rest(u + ['\n']) == []
  {
    hide Lines, Stretches, Rest;
    LinesConcat(u, ['\n']);
    RestFree(u);
    LineThen(Rest(u), []);
    LinesNone([]);
    assert Rest(u) + ['\n'] + [] == Rest(u) + ['\n'];
  }

  // ---- exactly which texts leave every ring alike ----

  /** The unterminated stretch is within the cap without its last character, and what follows an
      overlong line fills the ring without it. */
  ghost predicate Decided(caps: Caps, text: string) {
    && EndMild(caps.maxBytes, text)
    && forall before, line, after :: Overlong(caps.maxBytes, text, before, line, after) ==>
                                       Full(caps, Commits(caps.maxBytes, after))
  }

  predicate EndMild(maxBytes: int, text: string) {
    Rest(text) == [] || ByteLen(Front(Rest(text))) <= maxBytes
  }

  /** However a decided text is cut, a ring shows what it does when the text comes whole. */
  lemma DecidedShown(caps: Caps, text: string, chunks: seq<string>)
    requires caps.Valid() && Decided(caps, text) && Concat(chunks) == text
    ensures Shown(caps, chunks) == Fed(Kept(caps, Commits(caps.maxBytes, text)), Carries(caps.maxBytes, text))
  {
    var m := caps.maxBytes;
    if exists s :: s in Front(Stretches(text)) && ByteLen(s) > m {
      var before, line, after := LastOverlong(m, text);
      assert Mild(m, after);
      hide Stretches, Lines, Rest, Commits, Carries, FeedAll, ByteLen, Mild, Fits;
      var lines := Commits(m, after);
      assert Full(caps, lines);
      var pre := EndsWith(m, chunks, before + line, after);
      WholeOverlong(m, text, before, line, after);
      KeptAfter(caps, pre, lines);
      KeptAfter(caps, Lines(before) + [Stripped(line)], lines);
    } else {
      assert Mild(m, text);
      MildOutcome(m, chunks);
    }
  }

  /** An unterminated stretch over the cap before its last character shows whether that character
      came with the rest. */
  lemma EndShows(caps: Caps, text: string)
    requires caps.Valid() && !EndMild(caps.maxBytes, text)
    ensures var cut := [Front(text), [Last(text)]];
            text != [] && Concat(cut) == text && Shown(caps, cut) != Shown(caps, [text])
  {
    hide Lines, Rest, FeedAll, ByteLen, Stretches, Concat, Commits, Carries, Kept, EndMild;
    var m, r := caps.maxBytes, Rest(text);
    EndCommits(m, text);
    RestIsLast(text);
    EmptyBytes(Front(r));
    OneChunk(m, text);
    var f, c := Front(text), Last(text);
    TwoChunks(m, f, [c]);
    assert f + [c] == text && [] + [c] == [c];
    OneCharacter(m, c);
    LastsDiffer(caps, Lines(text), r, c);
  }

  lemma LastsDiffer(caps: Caps, before: seq<string>, r: string, c: char)
    requires caps.Valid() && r != [] && Front(r) != []
    ensures Kept(caps, before + [Front(r)] + [[c]]) != Kept(caps, before + [r])
  {
    var whole, all := before + [r], before + [Front(r)] + [[c]];
    KeptLast(caps, whole);
    KeptLast(caps, all);
    hide Kept;
    assert Last(all) == [c] && Last(whole) == r && |r| > 1;
  }

  /** What a text commits with and without the last character of an end over the cap. */
  lemma EndCommits(maxBytes: int, text: string)
    requires maxBytes >= 1 && !EndMild(maxBytes, text)
    ensures text != [] && Rest(text) != [] && ByteLen(Front(Rest(text))) > 0
    ensures Commits(maxBytes, text) == Lines(text) + [Rest(text)] && Carries(maxBytes, text) == []
    ensures Commits(maxBytes, Front(text)) == Lines(text) + [Front(Rest(text))] && Carries(maxBytes, Front(text)) == []
  {
    AllButLast(text);
    GrowsBytes(Rest(text));
    hide Lines, Rest, ByteLen, Stretches;
  }

  lemma EmptyBytes(s: string)
    ensures ByteLen(s) > 0 ==> s != []
  {
  }

  /** The last character of an unterminated text is no newline. */
  lemma RestIsLast(text: string)
    requires Rest(text) != []
    ensures text != [] && Last(text) != '\n'
  {
    AllButLast(text);
    var f, c := Front(text), Last(text);
    assert f + [c] == text;
    EndedLine(f);
  }

  lemma OneCharacter(maxBytes: int, c: char)
    requires c != '\n'
    ensures ByteLen([c]) > maxBytes ==> Commits(maxBytes, [c]) == [[c]] && Carries(maxBytes, [c]) == []
    ensures ByteLen([c]) <= maxBytes ==> Commits(maxBytes, [c]) == [] && Carries(maxBytes, [c]) == [c]
  {
    LinesNone([c]);
  }

  /** An overlong line that what follows does not push out shows whether its newline came with it. */
  lemma OverlongShows(caps: Caps, text: string, before: string, line: string, after: string)
    requires caps.Valid() && Overlong(caps.maxBytes, text, before, line, after)
    requires !Full(caps, Commits(caps.maxBytes, after))
    ensures var cut := [before + line, ['\n'] + after];
            Concat(cut) == text && Shown(caps, cut) != Shown(caps, [text])
  {
    var m := caps.maxBytes;
    var lines := Commits(m, after);
    WholeOverlong(m, text, before, line, after);
    CutOverlong(m, text, before, line, after);
    OneChunk(m, text);
    StrippedBytes(line);
    EmptyBytes(Stripped(line));
    hide Lines, Rest, FeedAll, ByteLen, Stretches, Commits, Carries, Stripped, Concat, Kept;
    NotPushedOut(caps, Lines(before), line, Stripped(line), lines);
  }

  lemma NotPushedOut(caps: Caps, before: seq<string>, line: string, stripped: string, lines: seq<string>)
    requires caps.Valid() && stripped != "" && ByteLen(stripped) >= caps.maxBytes && !Full(caps, lines)
    ensures Kept(caps, before + [line] + ([""] + lines)) != Kept(caps, before + [stripped] + lines)
  {
    hide Kept, ByteLen;
    var cut, whole := before + [line] + ([""] + lines), before + [stripped] + lines;
    if lines == [] {
      KeptLast(caps, cut);
      KeptLast(caps, whole);
      assert Last(cut) == "" && Last(whole) == stripped;
    } else {
      KeptAtLeast(caps, before + [line], [""] + lines);
      KeptPast(caps, before, stripped, lines);
      KeptShort(caps, lines);
    }
  }

  /** Every cutting of a text leaves a ring with these caps in one state exactly when the text is
      decided. */
  lemma RingInvisibleIff(caps: Caps, text: string)
    requires caps.Valid()
    ensures (forall c, d :: Concat(c) == text && Concat(d) == text ==> Shown(caps, c) == Shown(caps, d)) <==>
            Decided(caps, text)
  {
    OneChunk(caps.maxBytes, text);
    hide Shown, Concat, EndMild, Overlong, Full, Commits;
    if Decided(caps, text) {
      forall c, d | Concat(c) == text && Concat(d) == text ensures Shown(caps, c) == Shown(caps, d) {
        DecidedShown(caps, text, c);
        DecidedShown(caps, text, d);
      }
    } else if !EndMild(caps.maxBytes, text) {
      EndShows(caps, text);
    } else {
      var before, line, after :| Overlong(caps.maxBytes, text, before, line, after)
                                 && !Full(caps, Commits(caps.maxBytes, after));
      OverlongShows(caps, text, before, line, after);
    }
  }
}
