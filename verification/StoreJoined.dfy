/**
 The windows' authority is the store's: fed the patches of a run of windows in the order they
 arrive, the queued document ends as the one the windows share, and what it lets a window hear
 is exactly what was pushed to it.
 */
module StoreJoined {
  import opened Options
  import opened StorePatch
  import opened StoreClients
  import Authority = StoreAuthority
  import Words = StoreWords

  // ---- the traffic of a run, read off its events ----

  /** The patches a window has sent: its flushes that had something to say. */
  function Sent(events: seq<Event>, w: nat): seq<seq<PatchOp>> {
    if events == [] then []
    else
      var e := events[|events| - 1];
      Sent(events[..|events| - 1], w) + if e.Flush? && e.w == w && e.ops != [] then [e.ops] else []
  }

  /** How many of them have arrived, and how many pushes the window has taken in. */
  function Came(events: seq<Event>, w: nat): nat {
    if events == [] then 0
    else Came(events[..|events| - 1], w) + if events[|events| - 1] == PatchArrives(w) then 1 else 0
  }

  function TakenIn(events: seq<Event>, w: nat): nat {
    if events == [] then 0
    else TakenIn(events[..|events| - 1], w) + if events[|events| - 1] == PushArrives(w) then 1 else 0
  }

  /** The calls the authority gets: the next patch of a window whenever one arrives from it. */
  function Arriving(events: seq<Event>): seq<Authority.Call> {
    if events == [] then []
    else
      var before, e := events[..|events| - 1], events[|events| - 1];
      Arriving(before)
      + if e.PatchArrives? && Came(before, e.w) < |Sent(before, e.w)|
        then [Authority.Call(Authority.Patch(Sent(before, e.w)[Came(before, e.w)]), Some(e.w))] else []
  }

  /** The cell of the authority after the calls of a run. */
  function Joint(start: System, events: seq<Event>): Authority.Cell {
    Authority.CellAfter(Authority.Cell(None, Some(Object(start.document))), Arriving(events))
  }

  /** What the authority let a window hear. */
  function HeardBy(start: System, events: seq<Event>, w: nat): seq<Option<Json>> {
    Authority.Heard(Authority.Cell(None, Some(Object(start.document))), Arriving(events), w)
  }

  function Documents(inbox: seq<map<string, Json>>): (out: seq<Option<Json>>)
    ensures |out| == |inbox| && forall i :: 0 <= i < |inbox| ==> out[i] == Some(Object(inbox[i]))
  {
    seq(|inbox|, i requires 0 <= i < |inbox| => Some(Object(inbox[i])))
  }

  // ---- the two agree after every event ----

  /** A window has under way what it sent and has not arrived, and what it was pushed and has not
      taken in. */
  ghost predicate LinkOk(start: System, events: seq<Event>, s: System, w: nat)
    requires w < |s.windows|
  {
    && Came(events, w) <= |Sent(events, w)| && s.windows[w].outbox == Sent(events, w)[Came(events, w)..]
    && TakenIn(events, w) <= |HeardBy(start, events, w)|
    && Documents(s.windows[w].inbox) == HeardBy(start, events, w)[TakenIn(events, w)..]
  }

  ghost predicate JointOk(start: System, events: seq<Event>, s: System) {
    && Words.Shown(Joint(start, events)) == Object(s.document)
    && forall w :: 0 <= w < |s.windows| ==> LinkOk(start, events, s, w)
  }

  /** One event more. */
  lemma Appended(events: seq<Event>, e: Event, w: nat)
    ensures Sent(events + [e], w) == Sent(events, w) + if e.Flush? && e.w == w && e.ops != [] then [e.ops] else []
    ensures Came(events + [e], w) == Came(events, w) + if e == PatchArrives(w) then 1 else 0
    ensures TakenIn(events + [e], w) == TakenIn(events, w) + if e == PushArrives(w) then 1 else 0
    ensures Arriving(events + [e]) == Arriving(events)
      + if e.PatchArrives? && Came(events, e.w) < |Sent(events, e.w)|
        then [Authority.Call(Authority.Patch(Sent(events, e.w)[Came(events, e.w)]), Some(e.w))] else []
  {
    assert (events + [e])[..|events|] == events;
  }

  lemma JointStays(start: System, events: seq<Event>, e: Event, w: nat)
    requires !e.PatchArrives?
    ensures Joint(start, events + [e]) == Joint(start, events)
    ensures HeardBy(start, events + [e], w) == HeardBy(start, events, w)
  {
    Appended(events, e, w);
    assert Arriving(events) + [] == Arriving(events);
  }

  lemma OneMoreCall(c: Authority.Cell, calls: seq<Authority.Call>, call: Authority.Call, l: nat)
    ensures Authority.CellAfter(c, calls + [call]) == Authority.Perform(Authority.CellAfter(c, calls), call.op).cell
    ensures Authority.Heard(c, calls + [call], l) == Authority.Heard(c, calls, l)
      + if Authority.Commits(call.op) && call.origin != Some(l)
        then [Authority.Perform(Authority.CellAfter(c, calls), call.op).result] else []
  {
    assert (calls + [call])[..|calls|] == calls;
  }

  lemma PatchShows(c: Authority.Cell, ops: seq<PatchOp>)
    ensures var out := Authority.Perform(c, Authority.Patch(ops));
            Words.Shown(out.cell) == ApplyOps(Words.Shown(c), ops) && out.result == Some(Words.Shown(out.cell))
  {
  }

  /** The arrival of a patch is a call of the authority that everybody else hears. */
  lemma JointArrives(start: System, events: seq<Event>, s: System, a: nat, w: nat)
    requires JointOk(start, events, s) && a < |s.windows| && s.windows[a].outbox != []
    ensures var d, e := ApplyOps(Object(s.document), s.windows[a].outbox[0]), PatchArrives(a);
            && Words.Shown(Joint(start, events + [e])) == d
            && HeardBy(start, events + [e], w) == HeardBy(start, events, w) + if a != w then [Some(d)] else []
  {
    hide Sent, Came, TakenIn, Arriving, ApplyOps, Documents, Authority.Perform, Authority.CellAfter, Authority.Heard,
         Words.Shown;
    var e, ops := PatchArrives(a), s.windows[a].outbox[0];
    assert LinkOk(start, events, s, a);
    assert ops == Sent(events, a)[Came(events, a)];
    Appended(events, e, w);
    var c, call := Authority.Cell(None, Some(Object(start.document))), Authority.Call(Authority.Patch(ops), Some(a));
    OneMoreCall(c, Arriving(events), call, w);
    PatchShows(Joint(start, events), ops);
    assert HeardBy(start, events, w) + [] == HeardBy(start, events, w);
  }

  lemma StepJoint(start: System, events: seq<Event>, s: System, e: Event)
    requires JointOk(start, events, s) && Ok(s) && Enabled(s, e)
    ensures JointOk(start, events + [e], Step(s, e))
  {
    assert WindowOk(s.windows[e.w]);
    var t := Step(s, e);
    if e.PatchArrives? {
      ObjectStays(Object(s.document), s.windows[e.w].outbox[0]);
      JointArrives(start, events, s, e.w, 0);
    } else {
      JointStays(start, events, e, 0);
    }
    forall w | 0 <= w < |t.windows| ensures LinkOk(start, events + [e], t, w) {
      StepLink(start, events, s, e, w);
    }
    hide Joint, LinkOk, ApplyOps;
  }

  lemma StepLink(start: System, events: seq<Event>, s: System, e: Event, w: nat)
    requires JointOk(start, events, s) && Ok(s) && Enabled(s, e) && w < |s.windows|
    requires e.PatchArrives? ==> KeyOps(s.windows[e.w].outbox[0])
    ensures LinkOk(start, events + [e], Step(s, e), w)
  {
    assert LinkOk(start, events, s, w) && LinkOk(start, events, s, e.w);
    Appended(events, e, w);
    if e.PatchArrives? {
      ObjectStays(Object(s.document), s.windows[e.w].outbox[0]);
      JointArrives(start, events, s, e.w, w);
    } else {
      JointStays(start, events, e, w);
    }
    hide Sent, Came, TakenIn, Arriving, HeardBy, ApplyOps, Joint, JointOk, Replaced, Ok, WindowOk, LinkOk;
    LinkMoves(start, events, s, e, w);
  }

  lemma LinkMoves(start: System, events: seq<Event>, s: System, e: Event, w: nat)
    requires Enabled(s, e) && w < |s.windows| && LinkOk(start, events, s, w)
    requires e.PatchArrives? ==> KeyOps(s.windows[e.w].outbox[0])
    requires Sent(events + [e], w) == Sent(events, w) + if e.Flush? && e.w == w && e.ops != [] then [e.ops] else []
    requires Came(events + [e], w) == Came(events, w) + if e == PatchArrives(w) then 1 else 0
    requires TakenIn(events + [e], w) == TakenIn(events, w) + if e == PushArrives(w) then 1 else 0
    requires HeardBy(start, events + [e], w) == HeardBy(start, events, w)
      + if e.PatchArrives? && e.w != w then [Some(Object(Step(s, e).document))] else []
    ensures LinkOk(start, events + [e], Step(s, e), w)
  {
    hide Sent, Came, TakenIn, HeardBy, ApplyOps, Replaced, IsKeyDiff;
    var v, u := s.windows[w], Step(s, e).windows[w];
    assert e == PushArrives(w) ==> Documents(u.inbox) == Documents(v.inbox)[1..];
  }

  lemma StartJoint(start: System)
    requires Start(start)
    ensures JointOk(start, [], start)
  {
    forall w | 0 <= w < |start.windows| ensures LinkOk(start, [], start, w) {
      assert Opened(start.windows[w]);
    }
  }

  lemma {:induction false} RunJoint(start: System, events: seq<Event>, s: System)
    requires Reaches(start, events, s)
    ensures JointOk(start, events, s)
  {
    hide JointOk, IsKeyDiff, ApplyOps, Broadcast, Replaced, Start;
    if events == [] {
      StartJoint(start);
    } else {
      var n := |events| - 1;
      var r :| Reaches(start, events[..n], r) && Ok(r) && Enabled(r, events[n]) && s == Step(r, events[n]);
      hide Step, Enabled, Ok, WindowOk;
      RunJoint(start, events[..n], r);
      StepJoint(start, events[..n], r, events[n]);
      assert events[..n] + [events[n]] == events;
    }
  }

  // ---- the queued document and the windows ----

  /** A document machine that is called with the patches of a run of windows in the order they
      arrive, whatever else happens in between, ends with the document the windows share. */
  lemma AuthoritiesAgree(start: System, events: seq<Event>, s: System, calls: seq<Authority.Event>)
    requires Reaches(start, events, s) && Authority.Calls(calls) == Arriving(events)
    requires Authority.Run(Some(Object(start.document)), calls).queue == []
    ensures var m := Authority.Run(Some(Object(start.document)), calls);
            && Words.Shown(Authority.CellOf(m)) == Object(s.document)
            && m.disk == Some(Object(s.document))
  {
    RunJoint(start, events, s);
    Authority.QuiescentState(Some(Object(start.document)), calls);
    hide Reaches, Authority.Run, Authority.Calls;
    JointDisk(start, events);
  }

  /** The file of a document that is only patched is what it shows. */
  lemma JointDisk(start: System, events: seq<Event>)
    ensures Joint(start, events).disk == Some(Words.Shown(Joint(start, events)))
  {
    OnlyPatches(events);
    PatchedDisk(Authority.Cell(None, Some(Object(start.document))), Arriving(events));
  }

  lemma {:induction false} OnlyPatches(events: seq<Event>)
    ensures forall i :: 0 <= i < |Arriving(events)| ==> Arriving(events)[i].op.Patch?
  {
    if events != [] {
      OnlyPatches(events[..|events| - 1]);
    }
  }

  lemma {:induction false} PatchedDisk(c: Authority.Cell, calls: seq<Authority.Call>)
    requires c.disk == Some(Words.Shown(c))
    requires forall i :: 0 <= i < |calls| ==> calls[i].op.Patch?
    ensures var d := Authority.CellAfter(c, calls); d.disk == Some(Words.Shown(d))
  {
    if calls != [] {
      PatchedDisk(c, calls[..|calls| - 1]);
      assert calls[|calls| - 1].op.Patch?;
    }
  }

  /** Everything pushed to a window so far, taken in or still on its way, is what the document lets
      a listener hear that is told of every call but its own; and everything it sent has arrived
      or is on its way, in order. */
  lemma PushesAreHeard(start: System, events: seq<Event>, s: System, w: nat)
    requires Reaches(start, events, s) && w < |s.windows|
    ensures TakenIn(events, w) <= |HeardBy(start, events, w)| && Came(events, w) <= |Sent(events, w)|
    ensures HeardBy(start, events, w)[TakenIn(events, w)..] == Documents(s.windows[w].inbox)
    ensures Sent(events, w)[Came(events, w)..] == s.windows[w].outbox
  {
    RunJoint(start, events, s);
    assert LinkOk(start, events, s, w);
  }
}
