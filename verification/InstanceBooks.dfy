/**
 What the main process said and did about every instance over a whole run, read off its log:
 one fork, one shutdown for each instance that was asked to stop, no kill of one that was not,
 one report for each death with the reason its acks and shutdowns call for, and a hardware
 liveness and a list of live instances that are always up to date.
 */
module InstanceBooks {
  import opened Instances
  import opened InstanceProtocol

  /** How many reports an instance was given, and how many of them tell of an unclean death. */
  function Reports(log: seq<Effect>, id: nat, unclean: bool): nat {
    if log == [] then 0
    else
      var e := log[|log| - 1];
      Reports(log[..|log| - 1], id, unclean)
      + if e.NotifyDown? && e.id == id && (unclean ==> e.report.reason != Clean) then 1 else 0
  }

  lemma {:induction false} ReportsAppend(a: seq<Effect>, b: seq<Effect>, id: nat, unclean: bool)
    ensures Reports(a + b, id, unclean) == Reports(a, id, unclean) + Reports(b, id, unclean)
  {
    if b == [] {
      assert a + b == a;
    } else {
      var n := |b| - 1;
      ReportsAppend(a, b[..n], id, unclean);
      assert (a + b)[..|a + b| - 1] == a + b[..n];
    }
  }

  /** A report tells what is true of the record it is about. */
  predicate Truthful(report: Report, rec: Rec) {
    match report.reason
    case Clean => rec.quiesced
    case Killed => rec.expected
    case Crash => !rec.expected
  }

  /** How often the instance was forked, asked to stop, reported and swept. */
  ghost predicate Tallied(r: Registry, id: nat) {
    var known := Known(r, id);
    && Count(r.log, Fork(id, Hardware)) == OneIf(known && r.recs[id - 1].kind == Hardware)
    && Count(r.log, Fork(id, NonHardware)) == OneIf(known && r.recs[id - 1].kind == NonHardware)
    && Count(r.log, SendShutdown(id)) == OneIf(known && r.recs[id - 1].expected)
    && Reports(r.log, id, false) == OneIf(known && r.recs[id - 1].phase == Dead)
    && Reports(r.log, id, true) == Count(r.log, RunJanitor(id))
  }

  /** Nobody is killed who was not asked to stop, and what was reported is true. */
  ghost predicate Told(r: Registry, id: nat) {
    var known := Known(r, id);
    && (Kill(id) in r.log ==> known && r.recs[id - 1].expected)
    && (known && r.recs[id - 1].phase == Live ==> !r.recs[id - 1].expected)
    && (known && r.recs[id - 1].phase == Draining ==> r.recs[id - 1].expected)
    && (forall report :: NotifyDown(id, report) in r.log ==>
          known && r.recs[id - 1].phase == Dead && Truthful(report, r.recs[id - 1]))
  }

  /** The books of one instance. */
  ghost predicate Book(r: Registry, id: nat) {
    Tallied(r, id) && Told(r, id)
  }

  function OneIf(b: bool): nat {
    if b then 1 else 0
  }

  /** What the books look at: not who was granted hardware or who is alive. */
  predicate About(e: Effect, id: nat) {
    match e
    case SendClear(_) => false
    case HardwareAlive(_) => false
    case LiveInstances(_) => false
    case Fork(i, _) => i == id
    case SendShutdown(i) => i == id
    case Kill(i) => i == id
    case NotifyDown(i, _) => i == id
    case RunJanitor(i) => i == id
  }

  ghost predicate Silent(more: seq<Effect>, id: nat) {
    forall k :: 0 <= k < |more| ==> !About(more[k], id)
  }

  lemma {:induction false} SilentReports(more: seq<Effect>, id: nat, unclean: bool)
    requires Silent(more, id)
    ensures Reports(more, id, unclean) == 0
  {
    if more != [] {
      SilentReports(more[..|more| - 1], id, unclean);
    }
  }

  /** The record changed only where the books do not look. */
  ghost predicate SameEntry(r: Registry, s: Registry, id: nat) {
    && (Known(s, id) <==> Known(r, id))
    && (Known(r, id) ==>
          var a, b := r.recs[id - 1], s.recs[id - 1];
          b.kind == a.kind && b.phase == a.phase && b.expected == a.expected && (a.quiesced ==> b.quiesced))
  }

  lemma SilentBook(r: Registry, s: Registry, more: seq<Effect>, id: nat)
    requires Book(r, id) && s.log == r.log + more && Silent(more, id) && SameEntry(r, s, id)
    ensures Book(s, id)
  {
    hide Count, Reports;
    forall e | About(e, id) ensures Count(s.log, e) == Count(r.log, e) {
      CountAppend(r.log, more, e);
      CountNone(more, e);
    }
    ReportsAppend(r.log, more, id, false);
    ReportsAppend(r.log, more, id, true);
    SilentReports(more, id, false);
    SilentReports(more, id, true);
    forall e | e in more ensures !About(e, id) {
    }
    assert !(Kill(id) in more) by { assert About(Kill(id), id); }
    forall report ensures NotifyDown(id, report) !in more { assert About(NotifyDown(id, report), id); }
  }

  lemma UnchangedBook(r: Registry, s: Registry, id: nat)
    requires Book(r, id) && s.log == r.log && SameEntry(r, s, id)
    ensures Book(s, id)
  {
    hide Book, SameEntry;
    assert r.log + [] == r.log;
    SilentBook(r, s, [], id);
  }

  /** One effect more. */
  lemma OneEffect(log: seq<Effect>, x: Effect, id: nat)
    ensures Count(log + [x], Fork(id, Hardware)) == Count(log, Fork(id, Hardware)) + OneIf(x == Fork(id, Hardware))
    ensures Count(log + [x], Fork(id, NonHardware)) ==
            Count(log, Fork(id, NonHardware)) + OneIf(x == Fork(id, NonHardware))
    ensures Count(log + [x], SendShutdown(id)) == Count(log, SendShutdown(id)) + OneIf(x == SendShutdown(id))
    ensures Count(log + [x], RunJanitor(id)) == Count(log, RunJanitor(id)) + OneIf(x == RunJanitor(id))
    ensures Reports(log + [x], id, false) == Reports(log, id, false) + OneIf(x.NotifyDown? && x.id == id)
    ensures Reports(log + [x], id, true) ==
            Reports(log, id, true) + OneIf(x.NotifyDown? && x.id == id && x.report.reason != Clean)
  {
    assert (log + [x])[..|log|] == log;
  }

  // ---- every operation ----

  lemma TeardownBook(r: Registry, id: nat, j: nat)
    requires Book(r, j)
    ensures Book(Teardown(r, id), j)
  {
    hide Count, Reports;
    if Known(r, id) && r.recs[id - 1].phase == Live {
      OneEffect(r.log, SendShutdown(id), j);
    }
  }

  lemma {:induction false} QuitBook(r: Registry, k: nat, j: nat)
    requires Book(r, j)
    ensures Book(TeardownFirst(r, k), j)
  {
    hide Book, Teardown;
    if k > 0 {
      QuitBook(r, k - 1, j);
      TeardownBook(TeardownFirst(r, k - 1), k, j);
    }
  }

  lemma AckBook(r: Registry, id: nat, j: nat)
    requires Book(r, j)
    ensures Book(Ack(r, id), j)
  {
    hide Count, Reports;
    if Known(r, id) && r.recs[id - 1].phase == Draining {
      OneEffect(r.log, Kill(id), j);
    }
  }

  lemma DeadlineBook(r: Registry, id: nat, j: nat)
    requires Book(r, j)
    ensures Book(Deadline(r, id), j)
  {
    hide Count, Reports;
    if Known(r, id) && r.recs[id - 1].drainTimer && r.recs[id - 1].phase == Draining {
      OneEffect(r.log, Kill(id), j);
    }
  }

  lemma WindowClosedBook(r: Registry, w: string, j: nat)
    requires Book(r, j)
    ensures Book(WindowClosed(r, w), j)
  {
    hide Book, Teardown, OwnerFrom;
    var d := r.(recs := Detached(r.recs, w));
    UnchangedBook(r, d, j);
    var o := OwnerFrom(d.recs, w, 0);
    if o < |d.recs| {
      var e := With(d, o + 1, d.recs[o].(windows := d.recs[o].windows - {w}));
      UnchangedBook(d, e, j);
      TeardownBook(e, o + 1, j);
    }
  }

  lemma GoneBook(r: Registry, id: nat, code: int, j: nat)
    requires Book(r, j) && Known(r, id) && r.recs[id - 1].phase != Dead
    ensures Book(Gone(r, id, code), j)
  {
    hide Tallied, Told;
    GoneTallied(r, id, code, j);
    GoneTold(r, id, code, j);
  }

  lemma GoneTallied(r: Registry, id: nat, code: int, j: nat)
    requires Tallied(r, j) && Known(r, id) && r.recs[id - 1].phase != Dead
    ensures Tallied(Gone(r, id, code), j)
  {
    hide Count, Reports;
    var rec := r.recs[id - 1];
    var notify := NotifyDown(id, ClassifyExit(rec.quiesced, rec.expected, code));
    OneEffect(r.log, notify, j);
    if rec.quiesced {
      assert Gone(r, id, code).log == r.log + [notify];
    } else {
      OneEffect(r.log + [notify], RunJanitor(id), j);
      assert Gone(r, id, code).log == (r.log + [notify]) + [RunJanitor(id)];
    }
  }

  lemma GoneTold(r: Registry, id: nat, code: int, j: nat)
    requires Told(r, j) && Known(r, id) && r.recs[id - 1].phase != Dead
    ensures Told(Gone(r, id, code), j)
  {
  }

  lemma {:induction false} GrantSilent(recs: seq<Rec>, k: nat, j: nat)
    requires k <= |recs|
    ensures Silent(GrantLog(recs, k), j)
  {
    if k > 0 {
      GrantSilent(recs, k - 1, j);
    }
  }

  lemma GrantBook(r: Registry, j: nat)
    requires Book(r, j)
    ensures Book(Grant(r), j)
  {
    GrantSilent(r.recs, |r.recs|, j);
    hide Book, Grantable, GrantLog;
    SilentBook(r, Grant(r), GrantLog(r.recs, |r.recs|), j);
  }

  lemma EmittedBook(r: Registry, j: nat)
    requires Book(r, j)
    ensures Book(Emitted(r), j)
  {
    var alive := HardwareIsAlive(r.recs);
    var more := (if alive != r.lastAlive then [HardwareAlive(alive)] else []) + [LiveInstances(LiveIds(r.recs))];
    assert Emitted(r).log == r.log + more;
    hide Book, HardwareIsAlive, LiveIds;
    SilentBook(r, Emitted(r), more, j);
  }

  lemma ForkBook(r: Registry, kind: Kind, cleared: bool, j: nat)
    requires Book(r, j)
    ensures Book(Forked(r, kind, cleared), j)
  {
    var s := Forked(r, kind, false);
    ForkTallied(r, kind, j);
    ForkTold(r, kind, j);
    hide Tallied, Told;
    if cleared {
      SilentBook(s, Forked(r, kind, true), [SendClear(|r.recs| + 1)], j);
    }
  }

  lemma ForkTallied(r: Registry, kind: Kind, j: nat)
    requires Tallied(r, j)
    ensures Tallied(Forked(r, kind, false), j)
  {
    hide Count, Reports;
    OneEffect(r.log, Fork(|r.recs| + 1, kind), j);
  }

  lemma ForkTold(r: Registry, kind: Kind, j: nat)
    requires Told(r, j)
    ensures Told(Forked(r, kind, false), j)
  {
  }

  lemma OpenBook(r: Registry, kind: Kind, j: nat)
    requires Book(r, j)
    ensures Book(Open(r, kind), j)
  {
    hide Book;
    ForkBook(r, kind, kind == NonHardware, j);
    var s := Forked(r, kind, kind == NonHardware);
    GrantBook(s, j);
    EmittedBook(if kind == NonHardware then s else Grant(s), j);
    assert Open(r, kind) == Emitted(if kind == NonHardware then s else Grant(s));
  }

  lemma StepBook(w: World, e: Event, j: nat)
    requires Book(w.reg, j)
    ensures Book(Step(w, e).reg, j)
  {
    hide Book, Open, WindowClosed, Teardown, TeardownFirst, Deadline, Ack, Gone, Grant, Emitted;
    var r := w.reg;
    match e
    case Activate(kind) => OpenBook(r, kind, j);
    case Claim(_, _) => UnchangedBook(r, Step(w, e).reg, j);
    case Attach(_, _) => UnchangedBook(r, Step(w, e).reg, j);
    case CloseWindow(win) => WindowClosedBook(r, win, j);
    case Dispose(id) => TeardownBook(r, id, j);
    case Quit => QuitBook(r, |r.recs|, j);
    case DeadlineFires(id) => DeadlineBook(r, id, j);
    case AckArrives(id) => AckBook(r, id, j);
    case ExitArrives(id, code) =>
      if Known(r, id) && r.recs[id - 1].phase != Dead {
        GoneBook(r, id, code, j);
        GrantBook(Gone(r, id, code), j);
        EmittedBook(Grant(Gone(r, id, code)), j);
      }
    case JanitorDone(id) =>
      if Known(r, id) && JanitorPending(r, id - 1) {
        var s := With(r, id, r.recs[id - 1].(janitorDone := true));
        UnchangedBook(r, s, j);
        GrantBook(s, j);
      }
    case ProcessDies(_) =>
    case ClearArrives(_) =>
    case Acquire(_) =>
  }

  /** Over every run the log has one fork for every instance; one shutdown for every instance
      that was asked to stop, and no kill of any other; and one report for every death, with an
      unclean one for every sweep, each with a reason that is true of the instance. */
  lemma {:induction false} RunBooks(events: seq<Event>, id: nat)
    ensures Book(Run(events).reg, id)
  {
    if events == [] {
    } else {
      var n := |events| - 1;
      RunBooks(events[..n], id);
      hide Book, Step;
      StepBook(Run(events[..n]), events[n], id);
    }
  }

  /** An ack that comes while the instance drains ends the wait: the deadline is disarmed and the
      process is killed there and then. */
  lemma AckReaps(events: seq<Event>, id: nat)
    requires var r := Run(events).reg; Known(r, id) && r.recs[id - 1].phase == Draining
    ensures var r, s := Run(events).reg, Run(events + [AckArrives(id)]).reg;
            && Known(s, id) && s.recs[id - 1].quiesced && !s.recs[id - 1].drainTimer
            && s.recs[id - 1].phase == Draining
            && Count(s.log, Kill(id)) == Count(r.log, Kill(id)) + 1
  {
    assert (events + [AckArrives(id)])[..|events|] == events;
    var r := Run(events).reg;
    assert (r.log + [Kill(id)])[..|r.log|] == r.log;
    hide Run;
  }

  /** The deadline of a draining instance kills it once, however often the timer is heard of. */
  lemma DeadlineKills(events: seq<Event>, id: nat)
    requires var r := Run(events).reg; Known(r, id) && r.recs[id - 1].phase == Draining
    ensures var r, s, t := Run(events).reg, Run(events + [DeadlineFires(id)]).reg,
                           Run(events + [DeadlineFires(id)] + [DeadlineFires(id)]).reg;
            && Count(s.log, Kill(id)) == Count(r.log, Kill(id)) + OneIf(r.recs[id - 1].drainTimer)
            && t == s && Known(s, id) && s.recs[id - 1].phase == Draining && !s.recs[id - 1].drainTimer
  {
    var more := events + [DeadlineFires(id)];
    assert more[..|events|] == events;
    assert (more + [DeadlineFires(id)])[..|more|] == more;
    var r := Run(events).reg;
    assert (r.log + [Kill(id)])[..|r.log|] == r.log;
    assert Run(more) == Step(Run(events), DeadlineFires(id));
    assert Run(more + [DeadlineFires(id)]) == Step(Run(more), DeadlineFires(id));
    hide Run;
  }

  /** The exit notice of an instance is reported with the exit code it came with, as clean when an
      ack ever came, otherwise as killed when it was asked to stop, otherwise as a crash. */
  lemma ExitTells(events: seq<Event>, id: nat, code: int)
    requires var w := Run(events); Known(w.reg, id) && id !in w.alive && w.reg.recs[id - 1].phase != Dead
    ensures var reason := if Acked(events, id) then Clean
                          else if Count(Run(events).reg.log, SendShutdown(id)) > 0 then Killed else Crash;
            NotifyDown(id, Report(reason, code)) in Run(events + [ExitArrives(id, code)]).reg.log
  {
    hide Told, Acked, Count, Reports, Gone, Grant, Emitted;
    AckedIff(events, id);
    RunBooks(events, id);
    assert (events + [ExitArrives(id, code)])[..|events|] == events;
    GoneTells(Run(events).reg, id, code);
    hide Run;
  }

  lemma GoneTells(r: Registry, id: nat, code: int)
    requires Known(r, id)
    ensures var rec := r.recs[id - 1];
            NotifyDown(id, ClassifyExit(rec.quiesced, rec.expected, code)) in Emitted(Grant(Gone(r, id, code))).log
  {
    hide GrantLog, GrantedRecs, HardwareIsAlive, LiveIds;
    var rec := r.recs[id - 1];
    var notify := NotifyDown(id, ClassifyExit(rec.quiesced, rec.expected, code));
    assert Gone(r, id, code).log[|r.log|] == notify;
    assert Emitted(Grant(Gone(r, id, code))).log[|r.log|] == notify;
  }

  // ---- who acked ----

  /** An ack of the instance came while it was known. */
  ghost predicate Acked(events: seq<Event>, id: nat) {
    exists i :: AckedAt(events, id, i)
  }

  ghost predicate AckedAt(events: seq<Event>, id: nat, i: int) {
    0 <= i < |events| && events[i] == AckArrives(id) && Known(Run(events[..i]).reg, id)
  }

  /** The same instances have acked; new ones have not. */
  ghost predicate SameAcks(r: Registry, s: Registry) {
    && |s.recs| >= |r.recs|
    && (forall k :: 0 <= k < |r.recs| ==> s.recs[k].quiesced == r.recs[k].quiesced)
    && (forall k :: |r.recs| <= k < |s.recs| ==> !s.recs[k].quiesced)
  }

  lemma GrantAcks(r: Registry)
    ensures SameAcks(r, Grant(r))
  {
    hide Grantable;
  }

  lemma OpenAcks(r: Registry, kind: Kind)
    ensures SameAcks(r, Open(r, kind))
  {
    GrantAcks(Forked(r, kind, false));
    hide Grant;
    assert Open(r, kind).recs ==
           if kind == NonHardware then Forked(r, kind, true).recs else Grant(Forked(r, kind, false)).recs;
  }

  lemma {:induction false} QuitAcks(r: Registry, k: nat)
    ensures SameAcks(r, TeardownFirst(r, k)) && |TeardownFirst(r, k).recs| == |r.recs|
  {
    if k > 0 {
      QuitAcks(r, k - 1);
    }
  }

  lemma ExitAcks(r: Registry, id: nat, code: int)
    ensures SameAcks(r, Exit(r, id, code))
  {
    if Known(r, id) && r.recs[id - 1].phase != Dead {
      GrantAcks(Gone(r, id, code));
      assert SameAcks(r, Gone(r, id, code));
      hide Grant, Gone;
    }
  }

  lemma CloseAcks(r: Registry, w: string)
    ensures SameAcks(r, WindowClosed(r, w))
  {
    hide OwnerFrom;
  }

  lemma JanitorAcks(r: Registry, id: nat)
    requires Known(r, id)
    ensures SameAcks(r, JanitorFinished(r, id))
  {
    GrantAcks(With(r, id, r.recs[id - 1].(janitorDone := true)));
    hide Grant;
  }

  /** Only an ack of a known instance changes who has acked. */
  lemma StepAcks(w: World, e: Event)
    ensures !e.AckArrives? ==> SameAcks(w.reg, Step(w, e).reg)
    ensures e.AckArrives? ==> SameAcks(if Known(w.reg, e.id)
                                       then With(w.reg, e.id, w.reg.recs[e.id - 1].(quiesced := true))
                                       else w.reg, Step(w, e).reg)
  {
    hide Open, Exit, Grant, TeardownFirst, WindowClosed, JanitorFinished;
    var r := w.reg;
    match e
    case Activate(kind) => OpenAcks(r, kind);
    case CloseWindow(win) => CloseAcks(r, win);
    case Quit => QuitAcks(r, |r.recs|);
    case ExitArrives(id, code) => ExitAcks(r, id, code);
    case JanitorDone(id) =>
      if Known(r, id) {
        JanitorAcks(r, id);
      }
    case _ =>
  }

  /** An instance counts as acked exactly when an ack of it came at any time since its fork,
      before any shutdown included. */
  lemma {:induction false} AckedIff(events: seq<Event>, id: nat)
    ensures Acked(events, id) ==> Known(Run(events).reg, id)
    ensures Known(Run(events).reg, id) ==> (Run(events).reg.recs[id - 1].quiesced <==> Acked(events, id))
  {
    if events != [] {
      var n := |events| - 1;
      AckedIff(events[..n], id);
      StepAcks(Run(events[..n]), events[n]);
      AckedMore(events, id);
      hide Step, Acked;
    }
  }

  lemma AckedMore(events: seq<Event>, id: nat)
    requires events != []
    ensures var n := |events| - 1;
            Acked(events, id) <==>
              Acked(events[..n], id) || (events[n] == AckArrives(id) && Known(Run(events[..n]).reg, id))
  {
    hide Run, Known;
    var n := |events| - 1;
    forall i | 0 <= i < n ensures AckedAt(events, id, i) <==> AckedAt(events[..n], id, i) {
      assert events[..n][..i] == events[..i];
    }
    assert Acked(events, id) <==> Acked(events[..n], id) || AckedAt(events, id, n);
  }

  // ---- who is alive ----

  /** The last hardware liveness and the last list of live instances that were published. */
  function LastAlive(log: seq<Effect>): bool {
    if log == [] then false
    else if log[|log| - 1].HardwareAlive? then log[|log| - 1].alive else LastAlive(log[..|log| - 1])
  }

  function LastLive(log: seq<Effect>): seq<nat> {
    if log == [] then []
    else if log[|log| - 1].LiveInstances? then log[|log| - 1].ids else LastLive(log[..|log| - 1])
  }

  predicate Publishes(e: Effect) {
    e.HardwareAlive? || e.LiveInstances?
  }

  lemma {:induction false} NothingPublished(log: seq<Effect>, more: seq<Effect>)
    requires forall k :: 0 <= k < |more| ==> !Publishes(more[k])
    ensures LastAlive(log + more) == LastAlive(log) && LastLive(log + more) == LastLive(log)
  {
    if more == [] {
      assert log + more == log;
    } else {
      NothingPublished(log, more[..|more| - 1]);
      assert (log + more)[..|log + more| - 1] == log + more[..|more| - 1];
    }
  }

  /** What was last published is so: some hardware process is not dead, and these are the
      instances that are not dead, in the order of their ids. */
  ghost predicate UpToDate(r: Registry) {
    && r.lastAlive == LastAlive(r.log)
    && (LastAlive(r.log) <==> exists k :: 0 <= k < |r.recs| && r.recs[k].kind == Hardware && r.recs[k].phase != Dead)
    && (forall id :: id in LastLive(r.log) <==> Known(r, id) && r.recs[id - 1].phase != Dead)
    && (forall i, j :: 0 <= i < j < |LastLive(r.log)| ==> LastLive(r.log)[i] < LastLive(r.log)[j])
  }

  lemma {:induction false} LiveIdsAre(recs: seq<Rec>)
    requires Ids(recs)
    ensures forall id :: id in LiveIds(recs) <==> 1 <= id <= |recs| && recs[id - 1].phase != Dead
    ensures forall i, j :: 0 <= i < j < |LiveIds(recs)| ==> LiveIds(recs)[i] < LiveIds(recs)[j]
  {
    if recs != [] {
      var n := |recs| - 1;
      LiveIdsAre(recs[..n]);
      assert forall k :: 0 <= k < |LiveIds(recs[..n])| ==> LiveIds(recs[..n])[k] in LiveIds(recs[..n]);
    }
  }

  lemma EmittedUpToDate(r: Registry)
    requires Ids(r.recs) && r.lastAlive == LastAlive(r.log)
    ensures UpToDate(Emitted(r))
  {
    var s, alive := Emitted(r), HardwareIsAlive(r.recs);
    LiveIdsAre(r.recs);
    if alive != r.lastAlive {
      var mid := r.log + [HardwareAlive(alive)];
      assert s.log == mid + [LiveInstances(LiveIds(r.recs))] && mid[..|r.log|] == r.log;
      assert s.log[..|mid|] == mid;
    } else {
      assert s.log == r.log + [LiveInstances(LiveIds(r.recs))];
      assert s.log[..|r.log|] == r.log;
    }
  }

  /** Nobody died or came, and nothing was published. */
  ghost predicate SameAlive(r: Registry, s: Registry) {
    && |s.recs| == |r.recs| && s.lastAlive == r.lastAlive
    && (forall k :: 0 <= k < |r.recs| ==>
          s.recs[k].id == r.recs[k].id && s.recs[k].kind == r.recs[k].kind
          && (s.recs[k].phase == Dead <==> r.recs[k].phase == Dead))
    && LastAlive(s.log) == LastAlive(r.log) && LastLive(s.log) == LastLive(r.log)
  }

  lemma SameUpToDate(r: Registry, s: Registry)
    requires UpToDate(r) && SameAlive(r, s)
    ensures UpToDate(s)
  {
    hide LastAlive, LastLive;
    forall id | Known(r, id) ensures s.recs[id - 1].phase == Dead <==> r.recs[id - 1].phase == Dead {
    }
    if LastAlive(r.log) {
      var k :| 0 <= k < |r.recs| && r.recs[k].kind == Hardware && r.recs[k].phase != Dead;
      assert s.recs[k].kind == Hardware && s.recs[k].phase != Dead;
    }
  }

  lemma OneSilent(log: seq<Effect>, x: Effect)
    requires !Publishes(x)
    ensures LastAlive(log + [x]) == LastAlive(log) && LastLive(log + [x]) == LastLive(log)
  {
    assert (log + [x])[..|log|] == log;
  }

  lemma TeardownAlive(r: Registry, id: nat)
    ensures SameAlive(r, Teardown(r, id))
  {
    OneSilent(r.log, SendShutdown(id));
  }

  lemma {:induction false} QuitAlive(r: Registry, k: nat)
    ensures SameAlive(r, TeardownFirst(r, k))
  {
    if k > 0 {
      QuitAlive(r, k - 1);
      TeardownAlive(TeardownFirst(r, k - 1), k);
      hide Teardown, LastAlive, LastLive;
    }
  }

  lemma GrantAlive(r: Registry)
    ensures SameAlive(r, Grant(r))
  {
    GrantNothingPublished(r.recs, |r.recs|);
    NothingPublished(r.log, GrantLog(r.recs, |r.recs|));
  }

  lemma {:induction false} GrantNothingPublished(recs: seq<Rec>, k: nat)
    requires k <= |recs|
    ensures forall i :: 0 <= i < |GrantLog(recs, k)| ==> !Publishes(GrantLog(recs, k)[i])
  {
    if k > 0 {
      GrantNothingPublished(recs, k - 1);
    }
  }

  lemma AckAlive(r: Registry, id: nat)
    ensures SameAlive(r, Ack(r, id))
  {
    hide LastAlive, LastLive;
    OneSilent(r.log, Kill(id));
  }

  lemma DeadlineAlive(r: Registry, id: nat)
    ensures SameAlive(r, Deadline(r, id))
  {
    hide LastAlive, LastLive;
    OneSilent(r.log, Kill(id));
  }

  lemma WindowClosedAlive(r: Registry, w: string)
    ensures SameAlive(r, WindowClosed(r, w))
  {
    hide Teardown, LastAlive, LastLive, OwnerFrom;
    var d := r.(recs := Detached(r.recs, w));
    var o := OwnerFrom(d.recs, w, 0);
    if o < |d.recs| {
      var e := With(d, o + 1, d.recs[o].(windows := d.recs[o].windows - {w}));
      assert SameAlive(r, e);
      TeardownAlive(e, o + 1);
    }
  }

  lemma QuietAlive(r: Registry, e: Event)
    requires IsQuiet(e)
    ensures SameAlive(r, Step(World(r, {}, map[], {}), e).reg)
  {
    hide Teardown, WindowClosed, Ack, Deadline, LastAlive, LastLive;
    match e
    case CloseWindow(win) => WindowClosedAlive(r, win);
    case Dispose(id) => TeardownAlive(r, id);
    case DeadlineFires(id) => DeadlineAlive(r, id);
    case AckArrives(id) => AckAlive(r, id);
    case Claim(_, _) =>
    case Attach(_, _) =>
  }

  lemma OpenUpToDate(r: Registry, kind: Kind)
    requires UpToDate(r) && Ids(r.recs)
    ensures UpToDate(Open(r, kind))
  {
    var s := Forked(r, kind, kind == NonHardware);
    assert Open(r, kind) == Emitted(if kind == NonHardware then s else Grant(s));
    hide *;
    ForkAlive(r, kind);
    GrantAlive(s);
    GrantIds(s);
    EmittedUpToDate(if kind == NonHardware then s else Grant(s));
  }

  lemma ForkAlive(r: Registry, kind: Kind)
    requires r.lastAlive == LastAlive(r.log) && Ids(r.recs)
    ensures var s := Forked(r, kind, kind == NonHardware); s.lastAlive == LastAlive(s.log) && Ids(s.recs)
  {
    hide LastAlive, LastLive;
    var id := |r.recs| + 1;
    OneSilent(r.log, Fork(id, kind));
    OneSilent(r.log + [Fork(id, kind)], SendClear(id));
  }

  lemma GrantIds(r: Registry)
    requires Ids(r.recs) && r.lastAlive == LastAlive(r.log)
    ensures Ids(Grant(r).recs) && Grant(r).lastAlive == LastAlive(Grant(r).log)
  {
    GrantAlive(r);
    hide Grantable, GrantLog, LastAlive, LastLive;
  }

  lemma ExitUpToDate(r: Registry, id: nat, code: int)
    requires UpToDate(r) && Ids(r.recs)
    ensures UpToDate(Exit(r, id, code))
  {
    if Known(r, id) && r.recs[id - 1].phase != Dead {
      hide UpToDate, Gone, Grant, Emitted;
      GoneAlive(r, id, code);
      GrantIds(Gone(r, id, code));
      EmittedUpToDate(Grant(Gone(r, id, code)));
    }
  }

  lemma GoneAlive(r: Registry, id: nat, code: int)
    requires UpToDate(r) && Ids(r.recs) && Known(r, id)
    ensures var s := Gone(r, id, code); s.lastAlive == LastAlive(s.log) && Ids(s.recs)
  {
    hide LastAlive, LastLive, ClassifyExit;
    var rec := r.recs[id - 1];
    var report := ClassifyExit(rec.quiesced, rec.expected, code);
    var more := [NotifyDown(id, report)] + if ShouldRunJanitor(report) then [RunJanitor(id)] else [];
    NothingPublished(r.log, more);
    assert Gone(r, id, code).log == r.log + more;
  }

  /** In every reachable state what was last published about liveness is up to date. */
  lemma {:induction false} PublishedUpToDate(events: seq<Event>)
    ensures UpToDate(Run(events).reg)
  {
    if events == [] {
      assert EMPTY.log == [];
    } else {
      var n := |events| - 1;
      PublishedUpToDate(events[..n]);
      RunInv(events[..n]);
      StepUpToDate(Run(events[..n]), events[n]);
      hide Run, Step, UpToDate, Inv;
    }
  }

  lemma StepUpToDate(w: World, e: Event)
    requires UpToDate(w.reg) && Ids(w.reg.recs)
    ensures UpToDate(Step(w, e).reg)
  {
    hide UpToDate, Open, WindowClosed, Teardown, TeardownFirst, Deadline, Ack, Exit, Grant, LastAlive, LastLive;
    var r := w.reg;
    if e.Activate? {
      OpenUpToDate(r, e.kind);
    } else if e.ExitArrives? {
      ExitUpToDate(r, e.id, e.code);
    } else if e.Quit? {
      QuitAlive(r, |r.recs|);
      SameUpToDate(r, TeardownFirst(r, |r.recs|));
    } else if IsQuiet(e) {
      QuietAlive(r, e);
      SameUpToDate(r, Step(w, e).reg);
    } else if e.JanitorDone? && Known(r, e.id) {
      var s := With(r, e.id, r.recs[e.id - 1].(janitorDone := true));
      GrantAlive(s);
      SameUpToDate(r, s);
      SameUpToDate(s, Grant(s));
    }
  }

  // ---- quitting ----

  lemma {:induction false} QuitPhases(r: Registry, n: nat)
    requires n <= |r.recs|
    ensures |TeardownFirst(r, n).recs| == |r.recs|
    ensures forall k :: 0 <= k < |r.recs| ==>
              TeardownFirst(r, n).recs[k].phase ==
              if k < n && r.recs[k].phase == Live then Draining else r.recs[k].phase
  {
    if n > 0 {
      QuitPhases(r, n - 1);
    }
  }

  /** A quit asks every live instance to stop, each once, and changes no other. */
  lemma QuitStopsAll(events: seq<Event>, id: nat)
    requires Known(Run(events).reg, id)
    ensures var r, s := Run(events).reg, Run(events + [Quit]).reg;
            && Known(s, id)
            && s.recs[id - 1].phase == (if r.recs[id - 1].phase == Live then Draining else r.recs[id - 1].phase)
            && Count(s.log, SendShutdown(id)) ==
               Count(r.log, SendShutdown(id)) + OneIf(r.recs[id - 1].phase == Live)
  {
    assert (events + [Quit])[..|events|] == events;
    var r := Run(events).reg;
    QuitPhases(r, |r.recs|);
    RunBooks(events, id);
    RunBooks(events + [Quit], id);
    QuitExpected(r, |r.recs|, id);
    hide Run, TeardownFirst, Count;
  }

  lemma {:induction false} QuitExpected(r: Registry, n: nat, id: nat)
    requires n <= |r.recs| && Known(r, id)
    ensures var s := TeardownFirst(r, n);
            && Known(s, id)
            && s.recs[id - 1].expected == (r.recs[id - 1].expected || (id <= n && r.recs[id - 1].phase == Live))
  {
    if n > 0 {
      QuitExpected(r, n - 1, id);
      QuitPhases(r, n - 1);
    }
  }
}
