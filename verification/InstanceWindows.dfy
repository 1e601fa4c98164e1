/**
 When closing a window ends an instance: over every run of the instance protocol an instance
 that ever had a window is live only while it owns one, and a window that closes takes down
 exactly the instance it was the last window of.
 */
module InstanceWindows {
  import opened Instances
  import opened InstanceProtocol

  /** Only an instance that ever had a window owns one, and a live one that ever had one still does. */
  ghost predicate Housed(rec: Rec) {
    && (rec.windows != {} ==> rec.hadWindow)
    && (rec.phase == Live && rec.hadWindow ==> rec.windows != {})
  }

  ghost predicate AllHoused(recs: seq<Rec>) {
    forall k :: 0 <= k < |recs| ==> Housed(recs[k])
  }

  // ---- every operation keeps it ----

  lemma GrantHouses(r: Registry)
    requires AllHoused(r.recs)
    ensures AllHoused(Grant(r).recs)
  {
    hide Grantable;
    forall k | 0 <= k < |r.recs| ensures Housed(Grant(r).recs[k]) {
      assert Housed(r.recs[k]);
    }
  }

  lemma TeardownHouses(r: Registry, id: nat)
    requires AllHoused(r.recs)
    ensures AllHoused(Teardown(r, id).recs)
  {
  }

  lemma {:induction false} QuitHouses(r: Registry, k: nat)
    requires AllHoused(r.recs)
    ensures AllHoused(TeardownFirst(r, k).recs)
  {
    if k > 0 {
      QuitHouses(r, k - 1);
      TeardownHouses(TeardownFirst(r, k - 1), k);
    }
  }

  /** What closing a window does to every record: its first owner loses it, and goes into
      draining when it was its last; everybody loses it as an observer. */
  lemma ClosedRec(r: Registry, w: string, k: nat)
    requires k < |r.recs| && AllHoused(r.recs)
    ensures var s, first := WindowClosed(r, w), OwnerFrom(r.recs, w, 0) == k;
            var a, b := r.recs[k], s.recs[k];
            && |s.recs| == |r.recs|
            && b.windows == (if first then a.windows - {w} else a.windows) && b.attachments == a.attachments - {w}
            && b.phase == (if first && a.phase == Live && a.windows == {w} then Draining else a.phase)
            && b.hadWindow == a.hadWindow && b.id == a.id && b.kind == a.kind && b.quiesced == a.quiesced
  {
    hide Teardown, OwnerFrom;
    DetachedOwner(r.recs, w, 0);
    assert Housed(r.recs[k]);
    var d, o := r.(recs := Detached(r.recs, w)), OwnerFrom(r.recs, w, 0);
    if o < |r.recs| {
      var left := d.recs[o].windows - {w};
      var e := With(d, o + 1, d.recs[o].(windows := left));
      TeardownRec(e, o + 1, k);
      assert left == {} <==> d.recs[o].windows == {w};
    }
  }

  lemma TeardownRec(r: Registry, id: nat, k: nat)
    requires k < |r.recs|
    ensures |Teardown(r, id).recs| == |r.recs|
    ensures var a, b := r.recs[k], Teardown(r, id).recs[k];
            && b.windows == a.windows && b.attachments == a.attachments && b.hadWindow == a.hadWindow
            && b.id == a.id && b.kind == a.kind && b.quiesced == a.quiesced
            && b.phase == if k == id - 1 && a.phase == Live then Draining else a.phase
  {
  }

  lemma {:induction false} DetachedOwner(recs: seq<Rec>, w: string, k: nat)
    requires k <= |recs|
    ensures OwnerFrom(Detached(recs, w), w, k) == OwnerFrom(recs, w, k)
    decreases |recs| - k
  {
    if k < |recs| {
      DetachedOwner(recs, w, k + 1);
    }
  }

  lemma ClosedHouses(r: Registry, w: string)
    requires AllHoused(r.recs)
    ensures AllHoused(WindowClosed(r, w).recs)
  {
    var s := WindowClosed(r, w);
    if r.recs != [] {
      ClosedRec(r, w, 0);
    }
    forall k | 0 <= k < |s.recs| ensures Housed(s.recs[k]) {
      ClosedRec(r, w, k);
      assert Housed(r.recs[k]);
    }
    hide WindowClosed;
  }

  lemma OpenHouses(r: Registry, kind: Kind)
    requires AllHoused(r.recs)
    ensures AllHoused(Open(r, kind).recs)
  {
    GrantHouses(Forked(r, kind, false));
    hide Grant;
    assert Open(r, kind).recs ==
           if kind == NonHardware then Forked(r, kind, true).recs else Grant(Forked(r, kind, false)).recs;
  }

  lemma ExitHouses(r: Registry, id: nat, code: int)
    requires AllHoused(r.recs)
    ensures AllHoused(Exit(r, id, code).recs)
  {
    if Known(r, id) && r.recs[id - 1].phase != Dead {
      assert AllHoused(Gone(r, id, code).recs);
      GrantHouses(Gone(r, id, code));
      hide Grant, Gone;
    }
  }

  lemma QuietHouses(r: Registry, id: nat)
    requires AllHoused(r.recs)
    ensures AllHoused(Deadline(r, id).recs) && AllHoused(Ack(r, id).recs)
  {
  }

  lemma JanitorHouses(r: Registry, id: nat)
    requires AllHoused(r.recs) && Known(r, id)
    ensures AllHoused(JanitorFinished(r, id).recs)
  {
    GrantHouses(With(r, id, r.recs[id - 1].(janitorDone := true)));
    hide Grant;
  }

  lemma StepHouses(w: World, e: Event)
    requires AllHoused(w.reg.recs)
    ensures AllHoused(Step(w, e).reg.recs)
  {
    hide Open, Exit, WindowClosed, Teardown, TeardownFirst, Deadline, Ack, JanitorFinished;
    var r := w.reg;
    match e
    case Activate(kind) => OpenHouses(r, kind);
    case CloseWindow(win) => ClosedHouses(r, win);
    case Dispose(id) => TeardownHouses(r, id);
    case Quit => QuitHouses(r, |r.recs|);
    case ExitArrives(id, code) => ExitHouses(r, id, code);
    case JanitorDone(id) =>
      if Known(r, id) {
        JanitorHouses(r, id);
      }
    case DeadlineFires(id) => QuietHouses(r, id);
    case AckArrives(id) => QuietHouses(r, id);
    case _ =>
  }

  // ---- over every run ----

  /** In every reachable state a live instance that ever had a window still owns one. */
  lemma {:induction false} LiveOwnsAWindow(events: seq<Event>)
    ensures AllHoused(Run(events).reg.recs)
  {
    if events != [] {
      var n := |events| - 1;
      LiveOwnsAWindow(events[..n]);
      hide AllHoused, Step;
      StepHouses(Run(events[..n]), events[n]);
    }
  }

  /** A window that closes takes a live instance down exactly when it was the instance's last
      one, and nobody opened before it owns the same window. */
  lemma CloseTakesDown(events: seq<Event>, w: string, k: nat)
    requires k < |Run(events).reg.recs| && Run(events).reg.recs[k].phase == Live
    ensures var r, s := Run(events).reg.recs, Run(events + [CloseWindow(w)]).reg.recs;
            && |s| == |r|
            && (s[k].phase != Live <==> r[k].windows == {w} && forall j :: 0 <= j < k ==> w !in r[j].windows)
  {
    LiveOwnsAWindow(events);
    assert (events + [CloseWindow(w)])[..|events|] == events;
    var r := Run(events).reg;
    hide Run, WindowClosed, OwnerFrom, AllHoused;
    ClosedRec(r, w, k);
    FirstOwner(r.recs, w, 0, k);
  }

  lemma {:induction false} FirstOwner(recs: seq<Rec>, w: string, from: nat, k: nat)
    requires from <= k < |recs|
    ensures OwnerFrom(recs, w, from) == k <==>
            w in recs[k].windows && forall j :: from <= j < k ==> w !in recs[j].windows
    decreases |recs| - from
  {
    if from < k {
      FirstOwner(recs, w, from + 1, k);
    }
  }

  /** Closing a window takes nobody down that owns another window afterwards, and nobody that did
      not own it. */
  lemma CloseSparesOthers(events: seq<Event>, w: string, k: nat)
    requires k < |Run(events).reg.recs| && Run(events).reg.recs[k].phase == Live
    ensures var r, s := Run(events).reg.recs, Run(events + [CloseWindow(w)]).reg.recs;
            && |s| == |r|
            && (s[k].windows != {} || w !in r[k].windows ==> s[k].phase == Live)
            && (w !in r[k].windows ==> s[k] == r[k].(attachments := r[k].attachments - {w}))
  {
    LiveOwnsAWindow(events);
    assert (events + [CloseWindow(w)])[..|events|] == events;
    var r := Run(events).reg;
    hide Run, WindowClosed, AllHoused;
    ClosedRec(r, w, k);
    if w !in r.recs[k].windows {
      ClosedUnowned(r, w, k);
    }
  }

  lemma ClosedUnowned(r: Registry, w: string, k: nat)
    requires k < |r.recs| && w !in r.recs[k].windows
    ensures |WindowClosed(r, w).recs| == |r.recs|
    ensures WindowClosed(r, w).recs[k] == r.recs[k].(attachments := r.recs[k].attachments - {w})
  {
    DetachedOwner(r.recs, w, 0);
  }

  /** A window that only observes takes nobody down and sends nothing. */
  lemma ObserverCloses(events: seq<Event>, w: string)
    requires forall k :: 0 <= k < |Run(events).reg.recs| ==> w !in Run(events).reg.recs[k].windows
    ensures var r, s := Run(events).reg, Run(events + [CloseWindow(w)]).reg;
            && s.log == r.log && |s.recs| == |r.recs|
            && forall k :: 0 <= k < |r.recs| ==>
                 s.recs[k].phase == r.recs[k].phase && w !in s.recs[k].attachments && w !in s.recs[k].windows
  {
    assert (events + [CloseWindow(w)])[..|events|] == events;
    var r := Run(events).reg;
    DetachedOwner(r.recs, w, 0);
    hide Run;
  }

  // ---- whose a window is, read off the events ----

  /** The window was claimed for the instance, and has not closed since. */
  predicate Claimed(events: seq<Event>, id: nat, w: string) {
    events != [] &&
    var before, e := events[..|events| - 1], events[|events| - 1];
    if e == Claim(id, w) && Known(Run(before).reg, id) then true
    else e != CloseWindow(w) && Claimed(before, id, w)
  }

  /** The window was attached to the instance, and has not closed since. */
  predicate Observes(events: seq<Event>, id: nat, w: string) {
    events != [] &&
    var before, e := events[..|events| - 1], events[|events| - 1];
    if e == Attach(id, w) && Known(Run(before).reg, id) then true
    else e != CloseWindow(w) && Observes(before, id, w)
  }

  /** Nobody else claims the window. */
  ghost predicate OneOwner(events: seq<Event>, w: string) {
    forall i, j :: Claims(events, i, w) && Claims(events, j, w) ==> events[i].id == events[j].id
  }

  predicate Claims(events: seq<Event>, i: int, w: string) {
    0 <= i < |events| && events[i].Claim? && events[i].w == w
  }

  ghost predicate SameWindows(r: Registry, s: Registry) {
    && |s.recs| >= |r.recs|
    && (forall k :: 0 <= k < |r.recs| ==>
          s.recs[k].windows == r.recs[k].windows && s.recs[k].attachments == r.recs[k].attachments)
    && (forall k :: |r.recs| <= k < |s.recs| ==> s.recs[k].windows == {} && s.recs[k].attachments == {})
  }

  lemma GrantWindows(r: Registry)
    ensures SameWindows(r, Grant(r))
  {
    hide Grantable;
  }

  lemma {:induction false} QuitWindows(r: Registry, k: nat)
    ensures SameWindows(r, TeardownFirst(r, k)) && |TeardownFirst(r, k).recs| == |r.recs|
  {
    if k > 0 {
      QuitWindows(r, k - 1);
    }
  }

  lemma OpenWindows(r: Registry, kind: Kind)
    ensures SameWindows(r, Open(r, kind))
  {
    GrantWindows(Forked(r, kind, false));
    hide Grant;
    assert Open(r, kind).recs ==
           if kind == NonHardware then Forked(r, kind, true).recs else Grant(Forked(r, kind, false)).recs;
  }

  lemma ExitWindows(r: Registry, id: nat, code: int)
    ensures SameWindows(r, Exit(r, id, code))
  {
    if Known(r, id) && r.recs[id - 1].phase != Dead {
      GrantWindows(Gone(r, id, code));
      assert SameWindows(r, Gone(r, id, code));
      hide Grant, Gone;
    }
  }

  lemma QuietWindows(r: Registry, id: nat)
    ensures SameWindows(r, Teardown(r, id)) && SameWindows(r, Deadline(r, id)) && SameWindows(r, Ack(r, id))
  {
  }

  lemma JanitorWindows(r: Registry, id: nat)
    requires Known(r, id)
    ensures SameWindows(r, JanitorFinished(r, id))
  {
    GrantWindows(With(r, id, r.recs[id - 1].(janitorDone := true)));
    hide Grant;
  }

  /** Only claims, attachments and closes change whose windows are whose. */
  lemma StepWindows(w: World, e: Event)
    requires !e.Claim? && !e.Attach? && !e.CloseWindow?
    ensures SameWindows(w.reg, Step(w, e).reg)
  {
    hide Open, Exit, Grant, Teardown, TeardownFirst, Deadline, Ack, JanitorFinished;
    var r := w.reg;
    match e
    case Activate(kind) => OpenWindows(r, kind);
    case Quit => QuitWindows(r, |r.recs|);
    case ExitArrives(id, code) => ExitWindows(r, id, code);
    case JanitorDone(id) =>
      if Known(r, id) {
        JanitorWindows(r, id);
      }
    case Dispose(id) => QuietWindows(r, id);
    case DeadlineFires(id) => QuietWindows(r, id);
    case AckArrives(id) => QuietWindows(r, id);
    case _ =>
  }

  /** An instance observes exactly the windows attached to it that have not closed since; and when
      nobody else ever claims a window, it owns it exactly while it was claimed for it and has not
      closed since. */
  ghost predicate WindowsTold(events: seq<Event>, w: string) {
    var recs := Run(events).reg.recs;
    && (forall k :: 0 <= k < |recs| ==> (w in recs[k].attachments <==> Observes(events, k + 1, w)))
    && (OneOwner(events, w) ==> forall k :: 0 <= k < |recs| ==> (w in recs[k].windows <==> Claimed(events, k + 1, w)))
    && (forall id: nat :: !Known(Run(events).reg, id) ==> !Claimed(events, id, w) && !Observes(events, id, w))
  }

  lemma {:induction false} ClaimedOnce(events: seq<Event>, id: nat, w: string)
    requires Claimed(events, id, w)
    ensures exists i :: 0 <= i < |events| && events[i] == Claim(id, w)
  {
    var n := |events| - 1;
    if events[n] != Claim(id, w) {
      ClaimedOnce(events[..n], id, w);
    }
  }

  lemma SoleClaim(events: seq<Event>, a: nat, b: nat, w: string)
    requires OneOwner(events, w) && Claimed(events, a, w) && Claimed(events, b, w)
    ensures a == b
  {
    ClaimedOnce(events, a, w);
    ClaimedOnce(events, b, w);
    var i :| 0 <= i < |events| && events[i] == Claim(a, w);
    var j :| 0 <= j < |events| && events[j] == Claim(b, w);
    assert Claims(events, i, w) && Claims(events, j, w);
  }

  lemma OneOwnerBefore(events: seq<Event>, e: Event, w: string)
    ensures OneOwner(events + [e], w) ==> OneOwner(events, w)
  {
    forall i | Claims(events, i, w) ensures Claims(events + [e], i, w) && (events + [e])[i] == events[i] {
    }
  }

  /** What one more event tells. */
  lemma OneMoreTold(events: seq<Event>, e: Event, id: nat, w: string)
    ensures Run(events + [e]) == Step(Run(events), e)
    ensures Claimed(events + [e], id, w) ==
            ((e == Claim(id, w) && Known(Run(events).reg, id)) || (e != CloseWindow(w) && Claimed(events, id, w)))
    ensures Observes(events + [e], id, w) ==
            ((e == Attach(id, w) && Known(Run(events).reg, id)) || (e != CloseWindow(w) && Observes(events, id, w)))
  {
    assert (events + [e])[..|events|] == events;
    hide Step;
  }

  /** The instances' windows and attachments are what the events tell, in every run. */
  lemma {:induction false} WindowsAreTold(events: seq<Event>, w: string)
    ensures WindowsTold(events, w)
  {
    if events != [] {
      var n := |events| - 1;
      var before, e := events[..n], events[n];
      assert events == before + [e];
      hide WindowsTold, OneOwner, AllHoused, Claimed, Observes, Step;
      WindowsAreTold(before, w);
      LiveOwnsAWindow(before);
      OneOwnerBefore(before, e, w);
      if e.CloseWindow? {
        ClosedTold(before, e.w, w);
      } else if e.Claim? || e.Attach? {
        TakenTold(before, e, w);
      } else {
        StepWindows(Run(before), e);
        SameTold(before, e, w);
      }
    }
  }

  lemma TakenTold(events: seq<Event>, e: Event, w: string)
    requires WindowsTold(events, w) && (e.Claim? || e.Attach?)
    requires OneOwner(events + [e], w) ==> OneOwner(events, w)
    ensures WindowsTold(events + [e], w)
  {
    hide OneOwner, Claimed, Observes;
    var s := TakenStep(Run(events), e);
    forall id: nat ensures var all := events + [e];
      && Run(all).reg == s
      && Claimed(all, id, w) == ((e == Claim(id, w) && Known(Run(events).reg, id)) || Claimed(events, id, w))
      && Observes(all, id, w) == ((e == Attach(id, w) && Known(Run(events).reg, id)) || Observes(events, id, w))
    {
      OneMoreTold(events, e, id, w);
    }
    hide Run, Step;
  }

  lemma TakenStep(world: World, e: Event) returns (s: Registry)
    requires e.Claim? || e.Attach?
    ensures s == Step(world, e).reg && |s.recs| == |world.reg.recs|
    ensures forall k :: 0 <= k < |s.recs| ==>
              var a, b := world.reg.recs[k], s.recs[k];
              && b.windows == (if e.Claim? && e.id == k + 1 then a.windows + {e.w} else a.windows)
              && b.attachments == (if e.Attach? && e.id == k + 1 then a.attachments + {e.w} else a.attachments)
  {
    s := Step(world, e).reg;
  }

  lemma SameTold(events: seq<Event>, e: Event, w: string)
    requires WindowsTold(events, w) && !e.Claim? && !e.Attach? && !e.CloseWindow?
    requires SameWindows(Run(events).reg, Step(Run(events), e).reg)
    requires OneOwner(events + [e], w) ==> OneOwner(events, w)
    ensures WindowsTold(events + [e], w)
  {
    hide Step, OneOwner, Claimed, Observes;
    forall id: nat ensures var all := events + [e];
      Run(all) == Step(Run(events), e) && Claimed(all, id, w) == Claimed(events, id, w)
      && Observes(all, id, w) == Observes(events, id, w)
    {
      OneMoreTold(events, e, id, w);
    }
    hide Run;
  }

  lemma ClosedTold(events: seq<Event>, v: string, w: string)
    requires WindowsTold(events, w) && AllHoused(Run(events).reg.recs)
    requires OneOwner(events + [CloseWindow(v)], w) ==> OneOwner(events, w)
    ensures WindowsTold(events + [CloseWindow(v)], w)
  {
    hide OneOwner, Claimed, Observes, AllHoused, WindowClosed, Run, Known;
    var r, s := Run(events).reg, WindowClosed(Run(events).reg, v);
    forall id: nat ensures var all := events + [CloseWindow(v)];
      Run(all).reg == s && Claimed(all, id, w) == (v != w && Claimed(events, id, w))
      && Observes(all, id, w) == (v != w && Observes(events, id, w))
    {
      ClosedSays(events, v, id, w);
    }
    ClosedLength(r, v);
    forall k | 0 <= k < |r.recs|
      ensures s.recs[k].attachments == r.recs[k].attachments - {v}
      ensures v != w ==> (w in s.recs[k].windows <==> w in r.recs[k].windows)
      ensures v == w && OneOwner(events, w) ==> w !in s.recs[k].windows
    {
      ClosedLoses(events, v, w, k);
    }
    assert forall id: nat :: Known(s, id) <==> Known(r, id) by { KnownByLength(r, s); }
  }

  lemma KnownByLength(r: Registry, s: Registry)
    requires |s.recs| == |r.recs|
    ensures forall id: nat :: Known(s, id) <==> Known(r, id)
  {
  }

  lemma ClosedSays(events: seq<Event>, v: string, id: nat, w: string)
    ensures var all := events + [CloseWindow(v)];
            && Run(all).reg == WindowClosed(Run(events).reg, v)
            && Claimed(all, id, w) == (v != w && Claimed(events, id, w))
            && Observes(all, id, w) == (v != w && Observes(events, id, w))
  {
    OneMoreTold(events, CloseWindow(v), id, w);
    hide Claimed, Observes, Run, WindowClosed;
  }

  lemma ClosedLoses(events: seq<Event>, v: string, w: string, k: nat)
    requires WindowsTold(events, w) && AllHoused(Run(events).reg.recs) && k < |Run(events).reg.recs|
    ensures var r := Run(events).reg;
            var s := WindowClosed(r, v);
            && |s.recs| == |r.recs| && s.recs[k].attachments == r.recs[k].attachments - {v}
            && (v != w ==> (w in s.recs[k].windows <==> w in r.recs[k].windows))
            && (v == w && OneOwner(events, w) ==> w !in s.recs[k].windows)
  {
    hide OneOwner, Claimed, Observes, AllHoused, WindowClosed, Run;
    var r := Run(events).reg;
    ClosedRec(r, v, k);
    if v == w && OneOwner(events, w) && w in r.recs[k].windows {
      SoleOwnerFirst(events, r, w, k);
    }
  }

  lemma SoleOwnerFirst(events: seq<Event>, r: Registry, w: string, k: nat)
    requires WindowsTold(events, w) && OneOwner(events, w) && r == Run(events).reg
    requires k < |r.recs| && w in r.recs[k].windows
    ensures OwnerFrom(r.recs, w, 0) == k
  {
    hide OneOwner, Claimed, Observes, Run;
    forall j | 0 <= j < k ensures w !in r.recs[j].windows {
      if w in r.recs[j].windows {
        SoleClaim(events, j + 1, k + 1, w);
      }
    }
    FirstOwner(r.recs, w, 0, k);
  }

  lemma ClosedLength(r: Registry, w: string)
    ensures |WindowClosed(r, w).recs| == |r.recs|
  {
  }
}
