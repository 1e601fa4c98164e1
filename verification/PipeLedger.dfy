/**
 The connect ledger of the pipe broker session: which channel holds how many connects of which
 pipe, so that a closing channel gives back exactly what it still holds.
 */
module PipeLedger {
  import opened Options
  import opened InsertionMap

  type Channel = int
  type Pipe = string
  type Held = seq<Entry<Pipe, nat>>
  type Ledger = seq<Entry<Channel, Held>>

  /** The calls that reach the native broker. */
  datatype Call = Connect(pipe: Pipe) | Disconnect(pipe: Pipe) | Advertise(pipe: Pipe) | Drop(pipe: Pipe)

  /** Connects minus disconnects of a pipe. */
  function Balance(calls: seq<Call>, p: Pipe): int {
    if calls == [] then 0
    else
      var last := calls[|calls| - 1];
      Balance(calls[..|calls| - 1], p) + if last == Connect(p) then 1 else if last == Disconnect(p) then -1 else 0
  }

  lemma {:induction false} BalanceConcat(a: seq<Call>, b: seq<Call>, p: Pipe)
    ensures Balance(a + b, p) == Balance(a, p) + Balance(b, p)
  {
    if b == [] {
      assert a + b == a;
    } else {
      assert (a + b)[..|a + b| - 1] == a + b[..|b| - 1];
      BalanceConcat(a, b[..|b| - 1], p);
    }
  }

  lemma BalanceOne(c: Call, p: Pipe)
    ensures Balance([c], p) == if c == Connect(p) then 1 else if c == Disconnect(p) then -1 else 0
  {
    assert [c][..0] == [];
  }

  // ---- what a channel holds ----

  function HeldOf(l: Ledger, ch: Channel): Held {
    match Find(l, ch) case None => [] case Some(held) => held
  }

  function CountOf(held: Held, p: Pipe): nat {
    match Find(held, p) case None => 0 case Some(n) => n
  }

  /** The connects of a pipe over all channels. */
  function Total(l: Ledger, p: Pipe): nat {
    if l == [] then 0 else CountOf(l[0].value, p) + Total(l[1..], p)
  }

  /** Channels and their pipes are distinct; no entry is kept for nothing held. */
  ghost predicate HeldOk(held: Held) {
    Distinct(held) && held != [] && forall p :: Find(held, p) != None ==> CountOf(held, p) >= 1
  }

  ghost predicate LedgerOk(l: Ledger) {
    Distinct(l) && forall ch :: Find(l, ch) != None ==> HeldOk(HeldOf(l, ch))
  }

  lemma {:induction false} TotalPut(l: Ledger, ch: Channel, held: Held, p: Pipe)
    ensures Total(Put(l, ch, held), p) == Total(l, p) - CountOf(HeldOf(l, ch), p) + CountOf(held, p)
  {
    if l != [] && l[0].key != ch {
      TotalPut(l[1..], ch, held, p);
    }
  }

  lemma {:induction false} TotalRemove(l: Ledger, ch: Channel, p: Pipe)
    ensures Total(Remove(l, ch), p) == Total(l, p) - CountOf(HeldOf(l, ch), p)
  {
    if l != [] && l[0].key != ch {
      TotalRemove(l[1..], ch, p);
    }
  }

  /** One connect more for a channel. */
  function Grant(l: Ledger, ch: Channel, p: Pipe): Ledger {
    Put(l, ch, Put(HeldOf(l, ch), p, CountOf(HeldOf(l, ch), p) + 1))
  }

  function LessOne(held: Held, p: Pipe): Held {
    if CountOf(held, p) <= 1 then Remove(held, p) else Put(held, p, CountOf(held, p) - 1)
  }

  /** One connect less for a channel; a channel holding nothing has no entry. */
  function Release(l: Ledger, ch: Channel, p: Pipe): Ledger {
    var held := LessOne(HeldOf(l, ch), p);
    if held == [] then Remove(l, ch) else Put(l, ch, held)
  }

  lemma GrantCount(l: Ledger, ch: Channel, p: Pipe, c: Channel, q: Pipe)
    ensures CountOf(HeldOf(Grant(l, ch, p), c), q) == CountOf(HeldOf(l, c), q) + if c == ch && q == p then 1 else 0
    ensures Total(Grant(l, ch, p), q) == Total(l, q) + if q == p then 1 else 0
  {
    var held := Put(HeldOf(l, ch), p, CountOf(HeldOf(l, ch), p) + 1);
    PutFind(l, ch, held, c);
    PutFind(HeldOf(l, ch), p, CountOf(HeldOf(l, ch), p) + 1, q);
    TotalPut(l, ch, held, q);
  }

  lemma HeldOfOk(l: Ledger, ch: Channel)
    requires LedgerOk(l)
    ensures Distinct(HeldOf(l, ch)) && forall p :: Find(HeldOf(l, ch), p) != None ==> CountOf(HeldOf(l, ch), p) >= 1
  {
  }

  lemma GrantOk(l: Ledger, ch: Channel, p: Pipe)
    requires LedgerOk(l)
    ensures LedgerOk(Grant(l, ch, p))
  {
    HeldOfOk(l, ch);
    var was := HeldOf(l, ch);
    var held := Put(was, p, CountOf(was, p) + 1);
    PutDistinct(l, ch, held);
    PutDistinct(was, p, CountOf(was, p) + 1);
    forall q ensures Find(held, q) != None ==> CountOf(held, q) >= 1 {
      PutFind(was, p, CountOf(was, p) + 1, q);
    }
    forall c ensures Find(Grant(l, ch, p), c) != None ==> HeldOk(HeldOf(Grant(l, ch, p), c)) {
      PutFind(l, ch, held, c);
    }
  }

  lemma LessOneOk(held: Held, p: Pipe, q: Pipe)
    requires Distinct(held)
    ensures Distinct(LessOne(held, p))
    ensures Find(LessOne(held, p), q) ==
            if q != p then Find(held, q) else if CountOf(held, p) <= 1 then None else Some(CountOf(held, p) - 1)
  {
    if CountOf(held, p) <= 1 {
      RemoveFind(held, p, q);
      RemoveDistinct(held, p);
    } else {
      PutFind(held, p, CountOf(held, p) - 1, q);
      PutDistinct(held, p, CountOf(held, p) - 1);
    }
  }

  lemma ReleaseCount(l: Ledger, ch: Channel, p: Pipe, c: Channel, q: Pipe)
    requires LedgerOk(l) && CountOf(HeldOf(l, ch), p) >= 1
    ensures CountOf(HeldOf(Release(l, ch, p), c), q) == CountOf(HeldOf(l, c), q) - if c == ch && q == p then 1 else 0
    ensures Total(Release(l, ch, p), q) == Total(l, q) - if q == p then 1 else 0
  {
    HeldOfOk(l, ch);
    var held := LessOne(HeldOf(l, ch), p);
    LessOneOk(HeldOf(l, ch), p, q);
    PutFind(l, ch, held, c);
    TotalPut(l, ch, held, q);
    RemoveFind(l, ch, c);
    TotalRemove(l, ch, q);
  }

  lemma ReleaseOk(l: Ledger, ch: Channel, p: Pipe)
    requires LedgerOk(l)
    ensures LedgerOk(Release(l, ch, p))
  {
    HeldOfOk(l, ch);
    var held := LessOne(HeldOf(l, ch), p);
    forall q ensures Distinct(held) && (Find(held, q) != None ==> CountOf(held, q) >= 1) {
      LessOneOk(HeldOf(l, ch), p, q);
    }
    LessOneOk(HeldOf(l, ch), p, p);
    PutDistinct(l, ch, held);
    RemoveDistinct(l, ch);
    forall c ensures Find(Release(l, ch, p), c) != None ==> HeldOk(HeldOf(Release(l, ch, p), c)) {
      PutFind(l, ch, held, c);
      RemoveFind(l, ch, c);
    }
  }

  // ---- a closing channel ----

  function Repeat(c: Call, n: nat): seq<Call> {
    if n == 0 then [] else Repeat(c, n - 1) + [c]
  }

  /** The disconnects that give back everything held. */
  function GiveBack(held: Held): seq<Call> {
    if held == [] then [] else Repeat(Disconnect(held[0].key), held[0].value) + GiveBack(held[1..])
  }

  lemma {:induction false} RepeatBalance(q: Pipe, n: nat, p: Pipe)
    ensures Balance(Repeat(Disconnect(q), n), p) == if p == q then 0 - n else 0
  {
    if n > 0 {
      RepeatBalance(q, n - 1, p);
      BalanceConcat(Repeat(Disconnect(q), n - 1), [Disconnect(q)], p);
      BalanceOne(Disconnect(q), p);
    }
  }

  lemma {:induction false} GiveBackBalance(held: Held, p: Pipe)
    requires Distinct(held)
    ensures Balance(GiveBack(held), p) == 0 - CountOf(held, p)
  {
    if held != [] {
      GiveBackBalance(held[1..], p);
      RepeatBalance(held[0].key, held[0].value, p);
      BalanceConcat(Repeat(Disconnect(held[0].key), held[0].value), GiveBack(held[1..]), p);
    }
  }

  // ---- the commands ----

  /** `loose` records the calls that reached the broker without a channel to account them to. */
  datatype State = State(advertised: set<Pipe>, ledger: Ledger, broker: seq<Call>, loose: seq<Call>)

  datatype Event =
    | Advertises(pipe: Pipe)
    | Unadvertises(pipe: Pipe)
    | Connects(channel: Option<Channel>, pipe: Pipe)
    | Disconnects(channel: Option<Channel>, pipe: Pipe)
    | ChannelCloses(closed: Channel)

  const START := State({}, [], [], [])

  function Step(s: State, e: Event): State {
    match e
    case Advertises(p) => s.(broker := s.broker + [Advertise(p)], advertised := s.advertised + {p})
    case Unadvertises(p) => s.(broker := s.broker + [Drop(p)], advertised := s.advertised - {p})
    case Connects(channel, p) =>
      if p !in s.advertised then s
      else
        var t := s.(broker := s.broker + [Connect(p)]);
        (match channel
         case Some(ch) => t.(ledger := Grant(s.ledger, ch, p))
         case None => t.(loose := s.loose + [Connect(p)]))
    case Disconnects(channel, p) =>
      (match channel
       case Some(ch) =>
         if CountOf(HeldOf(s.ledger, ch), p) <= 0 then s
         else s.(ledger := Release(s.ledger, ch, p), broker := s.broker + [Disconnect(p)])
       case None => s.(broker := s.broker + [Disconnect(p)], loose := s.loose + [Disconnect(p)]))
    case ChannelCloses(ch) =>
      s.(ledger := Remove(s.ledger, ch), broker := s.broker + GiveBack(HeldOf(s.ledger, ch)))
  }

  function Run(events: seq<Event>): State {
    if events == [] then START else Step(Run(events[..|events| - 1]), events[|events| - 1])
  }

  ghost predicate Balanced(s: State, p: Pipe) {
    Balance(s.broker, p) == Total(s.ledger, p) + Balance(s.loose, p)
  }

  lemma StepOk(s: State, e: Event)
    requires LedgerOk(s.ledger)
    ensures LedgerOk(Step(s, e).ledger)
  {
    match e {
      case Connects(Some(ch), p) => GrantOk(s.ledger, ch, p);
      case Disconnects(Some(ch), p) => ReleaseOk(s.ledger, ch, p);
      case ChannelCloses(ch) =>
        RemoveDistinct(s.ledger, ch);
        forall c ensures Find(Remove(s.ledger, ch), c) == if c == ch then None else Find(s.ledger, c) {
          RemoveFind(s.ledger, ch, c);
        }
        hide HeldOk;
      case _ =>
    }
  }

  /** The one broker call a command can make. */
  function CallOf(e: Event): Call {
    match e
    case Advertises(p) => Advertise(p)
    case Unadvertises(p) => Drop(p)
    case Connects(_, p) => Connect(p)
    case Disconnects(_, p) => Disconnect(p)
    case ChannelCloses(_) => Drop([])
  }

  lemma StepBalanced(s: State, e: Event, p: Pipe)
    requires LedgerOk(s.ledger) && Balanced(s, p)
    ensures Balanced(Step(s, e), p)
  {
    hide Total, LedgerOk, Grant, Release;
    var c := CallOf(e);
    BalanceOne(c, p);
    BalanceConcat(s.broker, [c], p);
    BalanceConcat(s.loose, [c], p);
    hide Balance;
    match e {
      case Connects(Some(ch), q) => GrantCount(s.ledger, ch, q, ch, p);
      case Disconnects(Some(ch), q) =>
        if CountOf(HeldOf(s.ledger, ch), q) >= 1 {
          ReleaseCount(s.ledger, ch, q, ch, p);
        }
      case ChannelCloses(ch) =>
        HeldOfOk(s.ledger, ch);
        BalanceConcat(s.broker, GiveBack(HeldOf(s.ledger, ch)), p);
        GiveBackBalance(HeldOf(s.ledger, ch), p);
        TotalRemove(s.ledger, ch, p);
      case _ =>
    }
  }

  lemma {:induction false} RunOk(events: seq<Event>)
    ensures LedgerOk(Run(events).ledger)
  {
    if events != [] {
      RunOk(events[..|events| - 1]);
      StepOk(Run(events[..|events| - 1]), events[|events| - 1]);
    }
  }

  /** In every run and for every pipe, the broker's connects less its disconnects are what the
      channels together hold, plus the balance of the calls without a channel. */
  lemma {:induction false} RunBalanced(events: seq<Event>, p: Pipe)
    ensures Balanced(Run(events), p)
  {
    if events != [] {
      var n := |events| - 1;
      RunOk(events[..n]);
      RunBalanced(events[..n], p);
      StepBalanced(Run(events[..n]), events[n], p);
    }
  }

  /** A disconnect by a channel that holds nothing reaches no one. */
  lemma DoubleDisconnect(s: State, ch: Channel, p: Pipe)
    requires LedgerOk(s.ledger)
    ensures Step(s, Disconnects(Some(ch), p)).broker == s.broker <==> Find(HeldOf(s.ledger, ch), p) == None
  {
    HeldOfOk(s.ledger, ch);
    assert s.broker + [Disconnect(p)] != s.broker;
  }

  /** No command of a channel changes what another holds. */
  lemma OthersUntouched(s: State, e: Event, c: Channel, p: Pipe)
    requires LedgerOk(s.ledger)
    requires e.ChannelCloses? ==> e.closed != c
    requires e.Connects? || e.Disconnects? ==> e.channel != Some(c)
    ensures CountOf(HeldOf(Step(s, e).ledger, c), p) == CountOf(HeldOf(s.ledger, c), p)
  {
    hide Grant, Release;
    match e {
      case Connects(Some(ch), q) => GrantCount(s.ledger, ch, q, c, p);
      case Disconnects(Some(ch), q) =>
        if CountOf(HeldOf(s.ledger, ch), q) >= 1 {
          ReleaseCount(s.ledger, ch, q, c, p);
        }
      case ChannelCloses(ch) =>
        RemoveFind(s.ledger, ch, c);
      case _ =>
    }
  }

  /** From its close on, a channel that connects no more contributes nothing. */
  lemma {:induction false} ClosedHoldsNothing(events: seq<Event>, i: nat, ch: Channel, p: Pipe)
    requires i < |events| && events[i] == ChannelCloses(ch)
    requires forall j :: i < j < |events| && events[j].Connects? ==> events[j].channel != Some(ch)
    ensures CountOf(HeldOf(Run(events).ledger, ch), p) == 0
  {
    var n := |events| - 1;
    var s := Run(events[..n]);
    RunOk(events[..n]);
    if i == n {
      RemoveFind(s.ledger, ch, ch);
    } else {
      ClosedHoldsNothing(events[..n], i, ch, p);
      if events[n] == ChannelCloses(ch) {
        RemoveFind(s.ledger, ch, ch);
      } else if events[n].Disconnects? && events[n].channel == Some(ch) {
        if CountOf(HeldOf(s.ledger, ch), events[n].pipe) >= 1 {
          ReleaseCount(s.ledger, ch, events[n].pipe, ch, p);
        }
      } else {
        OthersUntouched(s, events[n], ch, p);
      }
    }
  }

  // ---- what a channel holds, read off the events ----

  predicate Known(events: seq<Event>, p: Pipe) {
    events != [] &&
    var e := events[|events| - 1];
    if e == Advertises(p) then true else e != Unadvertises(p) && Known(events[..|events| - 1], p)
  }

  /** The connects of a known pipe by the channel, less its disconnects, since it last closed or
      held nothing. */
  function Holds(events: seq<Event>, ch: Channel, p: Pipe): nat {
    if events == [] then 0
    else
      var before, e := events[..|events| - 1], events[|events| - 1];
      var n := Holds(before, ch, p);
      if e == Connects(Some(ch), p) && Known(before, p) then n + 1
      else if e == Disconnects(Some(ch), p) && n > 0 then n - 1
      else if e == ChannelCloses(ch) then 0
      else n
  }

  /** What the ledger counts for a channel is what its commands say, in every run. */
  lemma {:induction false} HoldsIsCounted(events: seq<Event>, ch: Channel, p: Pipe)
    ensures CountOf(HeldOf(Run(events).ledger, ch), p) == Holds(events, ch, p)
    ensures p in Run(events).advertised <==> Known(events, p)
  {
    if events != [] {
      var n := |events| - 1;
      HoldsIsCounted(events[..n], ch, p);
      RunOk(events[..n]);
      StepHolds(Run(events[..n]), events[n], ch, p);
      hide Step;
    }
  }

  // ---- what the broker is told, read off the events ----

  /** The calls without a channel that go through. */
  function Untracked(events: seq<Event>): seq<Call> {
    if events == [] then []
    else
      var before, e := events[..|events| - 1], events[|events| - 1];
      Untracked(before)
      + match e
        case Connects(None, p) => if Known(before, p) then [Connect(p)] else []
        case Disconnects(None, p) => [Disconnect(p)]
        case _ => []
  }

  function Announced(events: seq<Event>): seq<Call> {
    if events == [] then []
    else
      Announced(events[..|events| - 1])
      + match events[|events| - 1]
        case Advertises(p) => [Advertise(p)]
        case Unadvertises(p) => [Drop(p)]
        case _ => []
  }

  function Announcements(calls: seq<Call>): seq<Call> {
    if calls == [] then []
    else
      var last := calls[|calls| - 1];
      Announcements(calls[..|calls| - 1]) + if last.Advertise? || last.Drop? then [last] else []
  }

  lemma {:induction false} AnnouncementsConcat(a: seq<Call>, b: seq<Call>)
    requires forall i :: 0 <= i < |b| ==> b[i].Connect? || b[i].Disconnect?
    ensures Announcements(a + b) == Announcements(a)
  {
    if b == [] {
      assert a + b == a;
    } else {
      assert (a + b)[..|a + b| - 1] == a + b[..|b| - 1];
      AnnouncementsConcat(a, b[..|b| - 1]);
    }
  }

  lemma {:induction false} GiveBackDisconnects(held: Held)
    ensures forall i :: 0 <= i < |GiveBack(held)| ==> GiveBack(held)[i].Disconnect?
  {
    if held != [] {
      GiveBackDisconnects(held[1..]);
      RepeatIs(Disconnect(held[0].key), held[0].value);
    }
  }

  lemma {:induction false} RepeatIs(c: Call, n: nat)
    ensures forall i :: 0 <= i < |Repeat(c, n)| ==> Repeat(c, n)[i] == c
  {
    if n > 0 {
      RepeatIs(c, n - 1);
    }
  }

  /** The broker is told of every advert and its withdrawal, once and in order, and every untracked
      call of a known pipe reaches it. */
  lemma {:induction false} BrokerIsTold(events: seq<Event>)
    ensures Announcements(Run(events).broker) == Announced(events)
    ensures Run(events).loose == Untracked(events)
  {
    if events != [] {
      var n := |events| - 1;
      var s, e := Run(events[..n]), events[n];
      BrokerIsTold(events[..n]);
      StepTold(s, e);
      if e.Connects? && e.channel.None? {
        HoldsIsCounted(events[..n], 0, e.pipe);
      }
      hide Step, Known, Announcements;
    }
  }

  lemma StepTold(s: State, e: Event)
    ensures Announcements(Step(s, e).broker) == Announcements(s.broker)
              + (match e case Advertises(p) => [Advertise(p)] case Unadvertises(p) => [Drop(p)] case _ => [])
    ensures Step(s, e).loose == s.loose
              + match e
                case Connects(None, p) => if p in s.advertised then [Connect(p)] else []
                case Disconnects(None, p) => [Disconnect(p)]
                case _ => []
  {
    hide Grant, Release, Find, Remove, GiveBack;
    match e
    case Advertises(p) => assert (s.broker + [Advertise(p)])[..|s.broker|] == s.broker;
    case Unadvertises(p) => assert (s.broker + [Drop(p)])[..|s.broker|] == s.broker;
    case Connects(_, p) => AnnouncementsConcat(s.broker, [Connect(p)]);
    case Disconnects(_, p) => AnnouncementsConcat(s.broker, [Disconnect(p)]);
    case ChannelCloses(ch) =>
      GiveBackDisconnects(HeldOf(s.ledger, ch));
      AnnouncementsConcat(s.broker, GiveBack(HeldOf(s.ledger, ch)));
  }

  lemma StepHolds(s: State, e: Event, ch: Channel, p: Pipe)
    requires LedgerOk(s.ledger)
    ensures var n := CountOf(HeldOf(s.ledger, ch), p);
            CountOf(HeldOf(Step(s, e).ledger, ch), p) ==
              if e == Connects(Some(ch), p) && p in s.advertised then n + 1
              else if e == Disconnects(Some(ch), p) && n > 0 then n - 1
              else if e == ChannelCloses(ch) then 0
              else n
    ensures p in Step(s, e).advertised <==> e == Advertises(p) || (e != Unadvertises(p) && p in s.advertised)
  {
    hide Grant, Release, HeldOk;
    match e {
      case Connects(Some(c), q) => GrantCount(s.ledger, c, q, ch, p);
      case Disconnects(Some(c), q) =>
        if CountOf(HeldOf(s.ledger, c), q) > 0 {
          ReleaseCount(s.ledger, c, q, ch, p);
        }
      case ChannelCloses(c) => RemoveFind(s.ledger, c, ch);
      case _ =>
    }
  }

  // ---- the session in place ----

  class Broker {
    var advertised: set<Pipe>
    var connectLedger: Ledger
    var calls: seq<Call>
    ghost var loose: seq<Call>

    ghost function Abs(): State
      reads this
    {
      State(advertised, connectLedger, calls, loose)
    }

    constructor ()
      ensures Abs() == START
    {
      advertised, connectLedger, calls, loose := {}, [], [], [];
    }

    method AdvertisePipe(p: Pipe)
      modifies this
      ensures Abs() == Step(old(Abs()), Advertises(p))
    {
      calls := calls + [Advertise(p)];
      advertised := advertised + {p};
    }

    method UnadvertisePipe(p: Pipe)
      modifies this
      ensures Abs() == Step(old(Abs()), Unadvertises(p))
    {
      calls := calls + [Drop(p)];
      advertised := advertised - {p};
    }

    /** Connect a pipe; unknown pipes are refused. */
    method ConnectPipe(channel: Option<Channel>, p: Pipe) returns (known: bool)
      modifies this
      ensures known == (p in old(advertised)) && Abs() == Step(old(Abs()), Connects(channel, p))
    {
      known := p in advertised;
      if !known {
        return;
      }
      calls := calls + [Connect(p)];
      match channel {
        case Some(ch) =>
          var held := match Find(connectLedger, ch) case Some(h) => h case None => [];
          var have := match Find(held, p) case Some(n) => n case None => 0;
          connectLedger := Put(connectLedger, ch, Put(held, p, have + 1));
        case None => loose := loose + [Connect(p)];
      }
    }

    /** Disconnect a pipe; only a count the channel holds is given up. */
    method DisconnectPipe(channel: Option<Channel>, p: Pipe)
      modifies this
      ensures Abs() == Step(old(Abs()), Disconnects(channel, p))
    {
      match channel {
        case Some(ch) =>
          var held := match Find(connectLedger, ch) case Some(h) => h case None => [];
          var have := match Find(held, p) case Some(n) => n case None => 0;
          if have <= 0 {
            return;
          }
          held := if have <= 1 then Remove(held, p) else Put(held, p, have - 1);
          connectLedger := if held == [] then Remove(connectLedger, ch) else Put(connectLedger, ch, held);
        case None => loose := loose + [Disconnect(p)];
      }
      calls := calls + [Disconnect(p)];
    }

    /** Give back everything a closing channel still holds. */
    method ReconcileChannel(ch: Channel)
      requires LedgerOk(connectLedger)
      modifies this
      ensures Abs() == Step(old(Abs()), ChannelCloses(ch))
    {
      var found := Find(connectLedger, ch);
      if found == None {
        RemoveMissing(connectLedger, ch);
        assert calls + [] == calls;
        return;
      }
      var held := found.value;
      connectLedger := Remove(connectLedger, ch);
      ghost var all := held;
      while held != []
        invariant calls + GiveBack(held) == old(calls) + GiveBack(all)
        invariant connectLedger == Remove(old(connectLedger), ch) && advertised == old(advertised)
        invariant loose == old(loose)
        decreases |held|
      {
        var pipe, count := held[0].key, held[0].value;
        ghost var before := calls;
        for i := 0 to count
          invariant calls == before + Repeat(Disconnect(pipe), i)
          invariant connectLedger == Remove(old(connectLedger), ch) && advertised == old(advertised)
          invariant loose == old(loose)
        {
          calls := calls + [Disconnect(pipe)];
        }
        held := held[1..];
      }
      assert calls + [] == calls;
    }
  }

  lemma {:induction false} RemoveMissing(l: Ledger, ch: Channel)
    requires Find(l, ch) == None
    ensures Remove(l, ch) == l
  {
    if l != [] {
      RemoveMissing(l[1..], ch);
    }
  }
}
