/**
 The composition protocol of the pipe session: nodes materialized on demand, shared camera
 bricks counted per window, window-owned nodes dying with their window.
 */
module PipeCompose {
  import opened Options
  import opened InsertionMap

  type Id = string
  type Window = string

  /** The ledger key of a call without a window identity. */
  const ANON: Window := ""

  type Refs = seq<Entry<Window, nat>>
  datatype Node = Node(kind: string, epoch: nat, owner: Option<Window>, refs: Refs, materialized: bool)
  type Nodes = seq<Entry<Id, Node>>

  /** What reaches the materializers, and what they made of it. */
  datatype Work = Materialize(kind: string, id: Id) | Teardown(kind: string, id: Id)
  datatype Made = Threw | Shape(kind: string)

  datatype Error = NoIdentity | OutsideNamespace | BadRoot | OwnedElsewhere | NoMaterializer | MaterializerThrew
  datatype Outcome = Composed(node: Node) | Failed(error: Error)

  /** `works` holds the materializer calls that succeeded. */
  datatype State = State(kinds: set<string>, advertised: set<Id>, composed: Nodes, epochs: map<Id, nat>,
                         works: seq<Work>)

  function NodeOf(s: State, id: Id): Option<Node> {
    Find(s.composed, id)
  }

  function EpochOf(s: State, id: Id): nat {
    if id in s.epochs then s.epochs[id] else 0
  }

  function KeyOf(caller: Option<Window>): Window {
    match caller case None => ANON case Some(w) => w
  }

  // ---- references ----

  function RefsOf(refs: Refs, w: Window): nat {
    match Find(refs, w) case None => 0 case Some(n) => n
  }

  function TotalRefs(refs: Refs): nat {
    if refs == [] then 0 else refs[0].value + TotalRefs(refs[1..])
  }

  /** Distinct windows, each holding at least one reference. */
  ghost predicate RefsOk(refs: Refs) {
    Distinct(refs) && forall w :: Find(refs, w) != None ==> RefsOf(refs, w) >= 1
  }

  lemma NoRefs(refs: Refs)
    requires RefsOk(refs)
    ensures TotalRefs(refs) == 0 <==> refs == []
  {
    if refs != [] {
      assert Find(refs, refs[0].key) == Some(refs[0].value);
    }
  }

  function AddRef(refs: Refs, w: Window): Refs {
    Put(refs, w, RefsOf(refs, w) + 1)
  }

  function DropRef(refs: Refs, w: Window): Refs {
    if RefsOf(refs, w) <= 1 then Remove(refs, w) else Put(refs, w, RefsOf(refs, w) - 1)
  }

  lemma OneRef(w: Window)
    ensures RefsOk([Entry(w, 1)]) && forall v :: Find([Entry(w, 1)], v) == if v == w then Some(1) else None
  {
    var refs: Refs := [Entry(w, 1)];
    assert refs[1..] == [];
    forall v ensures Find(refs, v) == if v == w then Some(1) else None {
    }
  }

  lemma AddRefOk(refs: Refs, w: Window)
    requires RefsOk(refs)
    ensures RefsOk(AddRef(refs, w)) && AddRef(refs, w) != []
    ensures forall v :: Find(AddRef(refs, w), v) == if v == w then Some(RefsOf(refs, w) + 1) else Find(refs, v)
  {
    PutDistinct(refs, w, RefsOf(refs, w) + 1);
    forall v ensures Find(AddRef(refs, w), v) == if v == w then Some(RefsOf(refs, w) + 1) else Find(refs, v) {
      PutFind(refs, w, RefsOf(refs, w) + 1, v);
    }
  }

  lemma DropRefOk(refs: Refs, w: Window)
    requires RefsOk(refs)
    ensures RefsOk(DropRef(refs, w))
    ensures forall v :: Find(DropRef(refs, w), v) ==
                        if v != w then Find(refs, v) else if RefsOf(refs, w) <= 1 then None
                        else Some(RefsOf(refs, w) - 1)
  {
    RemoveDistinct(refs, w);
    PutDistinct(refs, w, if RefsOf(refs, w) <= 1 then 1 else RefsOf(refs, w) - 1);
    forall v ensures Find(DropRef(refs, w), v) ==
                     if v != w then Find(refs, v) else if RefsOf(refs, w) <= 1 then None
                     else Some(RefsOf(refs, w) - 1) {
      RemoveFind(refs, w, v);
      PutFind(refs, w, if RefsOf(refs, w) <= 1 then 1 else RefsOf(refs, w) - 1, v);
    }
  }

  lemma RemoveRefOk(refs: Refs, w: Window)
    requires RefsOk(refs)
    ensures RefsOk(Remove(refs, w))
    ensures forall v :: Find(Remove(refs, w), v) == if v == w then None else Find(refs, v)
  {
    RemoveDistinct(refs, w);
    forall v ensures Find(Remove(refs, w), v) == if v == w then None else Find(refs, v) {
      RemoveFind(refs, w, v);
    }
  }

  // ---- the commands ----

  /** The call that tearing a node down makes; its advert's kind picks the materializer. */
  function TeardownWork(kinds: set<string>, id: Id, n: Node): seq<Work> {
    if n.materialized && n.kind in kinds then [Teardown(n.kind, id)] else []
  }

  /** Whether a caller may compose an id. */
  function Admit(caller: Option<Window>, id: Id): Option<Error> {
    if "win/" <= id then
      if caller == None || caller == Some(ANON) then Some(NoIdentity)
      else if !("win/" + caller.value + "/" <= id) then Some(OutsideNamespace)
      else None
    else if !("camera/" <= id) then Some(BadRoot)
    else None
  }

  /** `made` is what the kind's materializer does when it is asked. */
  function Compose(s: State, caller: Option<Window>, id: Id, kind: string, made: Made): (State, Outcome) {
    var refused := Admit(caller, id);
    if refused != None then (s, Failed(refused.value))
    else
      var winRooted := "win/" <= id;
      match NodeOf(s, id)
      case Some(n) =>
        if winRooted && n.owner != caller then (s, Failed(OwnedElsewhere))
        else
          var m := n.(refs := AddRef(n.refs, KeyOf(caller)));
          (s.(composed := Put(s.composed, id, m)), Composed(m))
      case None =>
        if kind in s.kinds then
          match made
          case Threw => (s, Failed(MaterializerThrew))
          case Shape(k) => Fresh(s.(works := s.works + [Materialize(k, id)]), caller, id, k, true)
        else if !winRooted && id in s.advertised then Fresh(s, caller, id, kind, false)
        else (s, Failed(NoMaterializer))
  }

  function Fresh(s: State, caller: Option<Window>, id: Id, kind: string, materialized: bool): (State, Outcome) {
    var epoch := EpochOf(s, id) + 1;
    var n := Node(kind, epoch, if "win/" <= id then caller else None, [Entry(KeyOf(caller), 1)], materialized);
    (s.(composed := Put(s.composed, id, n), epochs := s.epochs[id := epoch]), Composed(n))
  }

  function Decompose(s: State, caller: Option<Window>, id: Id): State {
    match NodeOf(s, id)
    case None => s
    case Some(n) =>
      var m := n.(refs := DropRef(n.refs, KeyOf(caller)));
      if TotalRefs(m.refs) == 0 then
        s.(composed := Remove(s.composed, id), works := s.works + TeardownWork(s.kinds, id, n))
      else s.(composed := Put(s.composed, id, m))
  }

  /** What becomes of one node when a window closes. */
  function AfterClose(n: Node, w: Window): Option<Node> {
    if n.owner == Some(w) then None
    else if Find(n.refs, w) != None then
      var m := n.(refs := Remove(n.refs, w));
      if TotalRefs(m.refs) == 0 then None else Some(m)
    else Some(n)
  }

  function Kept(entry: Entry<Id, Node>, w: Window): Nodes {
    match AfterClose(entry.value, w) case None => [] case Some(n) => [Entry(entry.key, n)]
  }

  function SweepWork(kinds: set<string>, entry: Entry<Id, Node>, w: Window): seq<Work> {
    if AfterClose(entry.value, w) == None then TeardownWork(kinds, entry.key, entry.value) else []
  }

  function CloseNodes(nodes: Nodes, w: Window): Nodes {
    if nodes == [] then [] else Kept(nodes[0], w) + CloseNodes(nodes[1..], w)
  }

  function CloseWork(kinds: set<string>, nodes: Nodes, w: Window): seq<Work> {
    if nodes == [] then [] else SweepWork(kinds, nodes[0], w) + CloseWork(kinds, nodes[1..], w)
  }

  datatype Event =
    | Advertises(pipe: Id)
    | Unadvertises(pipe: Id)
    | Composes(caller: Option<Window>, id: Id, kind: string, made: Made)
    | Decomposes(caller: Option<Window>, id: Id)
    | WindowCloses(window: Window)

  function Step(s: State, e: Event): State {
    match e
    case Advertises(p) => s.(advertised := s.advertised + {p})
    case Unadvertises(p) => s.(advertised := s.advertised - {p})
    case Composes(caller, id, kind, made) => Compose(s, caller, id, kind, made).0
    case Decomposes(caller, id) => Decompose(s, caller, id)
    case WindowCloses(w) =>
      s.(composed := CloseNodes(s.composed, w), works := s.works + CloseWork(s.kinds, s.composed, w))
  }

  function Run(kinds: set<string>, events: seq<Event>): State {
    if events == [] then State(kinds, {}, [], map[], [])
    else Step(Run(kinds, events[..|events| - 1]), events[|events| - 1])
  }

  // ---- a closing window, node by node ----

  lemma CloseHead(nodes: Nodes, w: Window)
    requires nodes != []
    ensures var rest, after := CloseNodes(nodes[1..], w), AfterClose(nodes[0].value, w);
            if after == None then CloseNodes(nodes, w) == rest
            else CloseNodes(nodes, w) == [Entry(nodes[0].key, after.value)] + rest && CloseNodes(nodes, w)[1..] == rest
  {
    hide AfterClose;
  }

  function Joined(done: Nodes, todo: Nodes): Nodes {
    done + todo
  }

  /** Where a sweep that has come to `todo` ends. */
  function SweepNodes(done: Nodes, todo: Nodes, w: Window): Nodes {
    done + CloseNodes(todo, w)
  }

  function SweepWorks(kinds: set<string>, works: seq<Work>, todo: Nodes, w: Window): seq<Work> {
    works + CloseWork(kinds, todo, w)
  }

  lemma SweepStart(kinds: set<string>, todo: Nodes, works: seq<Work>, w: Window)
    ensures Joined([], todo) == todo && SweepNodes([], todo, w) == CloseNodes(todo, w)
    ensures SweepWorks(kinds, works, todo, w) == works + CloseWork(kinds, todo, w)
  {
  }

  lemma SweepEnd(kinds: set<string>, done: Nodes, works: seq<Work>, w: Window)
    ensures Joined(done, []) == done && SweepNodes(done, [], w) == done && SweepWorks(kinds, works, [], w) == works
  {
  }

  lemma SweepOn(kinds: set<string>, done: Nodes, todo: Nodes, works: seq<Work>, w: Window)
    requires todo != []
    ensures done + CloseNodes(todo, w) == done + Kept(todo[0], w) + CloseNodes(todo[1..], w)
    ensures works + CloseWork(kinds, todo, w) == works + SweepWork(kinds, todo[0], w) + CloseWork(kinds, todo[1..], w)
  {
    hide Kept, SweepWork;
  }

  lemma {:induction false} CloseFind(nodes: Nodes, w: Window, id: Id)
    requires Distinct(nodes)
    ensures Find(CloseNodes(nodes, w), id) == match Find(nodes, id) case None => None case Some(n) => AfterClose(n, w)
  {
    if nodes != [] {
      CloseFind(nodes[1..], w, id);
      CloseHead(nodes, w);
      hide AfterClose, CloseNodes;
    }
  }

  lemma {:induction false} CloseDistinct(nodes: Nodes, w: Window)
    requires Distinct(nodes)
    ensures Distinct(CloseNodes(nodes, w))
  {
    if nodes != [] {
      CloseDistinct(nodes[1..], w);
      CloseFind(nodes[1..], w, nodes[0].key);
      CloseHead(nodes, w);
      hide AfterClose, CloseNodes;
    }
  }

  /** Materializations less teardowns of an id. */
  function Standing(works: seq<Work>, id: Id): int {
    if works == [] then 0
    else
      var last := works[|works| - 1];
      Standing(works[..|works| - 1], id) + if last.id != id then 0 else if last.Materialize? then 1 else -1
  }

  lemma {:induction false} StandingConcat(a: seq<Work>, b: seq<Work>, id: Id)
    ensures Standing(a + b, id) == Standing(a, id) + Standing(b, id)
  {
    if b == [] {
      assert a + b == a;
    } else {
      assert (a + b)[..|a + b| - 1] == a + b[..|b| - 1];
      StandingConcat(a, b[..|b| - 1], id);
    }
  }

  lemma StandingOne(x: Work, id: Id)
    ensures Standing([x], id) == if x.id != id then 0 else if x.Materialize? then 1 else -1
  {
    assert [x][..0] == [];
  }

  /** Whether tearing a node down reaches a materializer. */
  predicate Owed(kinds: set<string>, n: Option<Node>) {
    n != None && n.value.materialized && n.value.kind in kinds
  }

  lemma TeardownStanding(kinds: set<string>, at: Id, n: Node, id: Id)
    ensures Standing(TeardownWork(kinds, at, n), id) == if at == id && Owed(kinds, Some(n)) then -1 else 0
  {
    StandingOne(Teardown(n.kind, at), id);
  }

  lemma {:induction false} CloseStanding(kinds: set<string>, nodes: Nodes, w: Window, id: Id)
    requires Distinct(nodes)
    ensures Standing(CloseWork(kinds, nodes, w), id) ==
            if Owed(kinds, Find(nodes, id)) && AfterClose(Find(nodes, id).value, w) == None then -1 else 0
  {
    if nodes != [] {
      hide AfterClose, TeardownWork;
      var head := SweepWork(kinds, nodes[0], w);
      CloseStanding(kinds, nodes[1..], w, id);
      TeardownStanding(kinds, nodes[0].key, nodes[0].value, id);
      StandingConcat(head, CloseWork(kinds, nodes[1..], w), id);
    }
  }

  // ---- what holds in every run ----

  /** A composed node is referenced; a window-rooted one is owned by a window above its path,
      which alone references it; a shared one has no owner. */
  ghost predicate NodeOk(id: Id, n: Node) {
    && RefsOk(n.refs) && n.refs != []
    && ("win/" <= id <==> n.owner != None)
    && (n.owner != None ==> "win/" + n.owner.value + "/" <= id && n.owner.value != ANON &&
                            forall v :: Find(n.refs, v) != None ==> v == n.owner.value)
  }

  ghost predicate IdOk(s: State, id: Id) {
    NodeOf(s, id) != None ==> NodeOk(id, NodeOf(s, id).value) && NodeOf(s, id).value.epoch == EpochOf(s, id)
  }

  ghost predicate Ok(s: State) {
    Distinct(s.composed) && forall id :: IdOk(s, id)
  }

  lemma StepDistinct(s: State, e: Event)
    requires Distinct(s.composed)
    ensures Distinct(Step(s, e).composed)
  {
    match e {
      case Composes(caller, id, kind, made) =>
        forall n ensures Distinct(Put(s.composed, id, n)) {
          PutDistinct(s.composed, id, n);
        }
      case Decomposes(caller, id) =>
        RemoveDistinct(s.composed, id);
        forall n ensures Distinct(Put(s.composed, id, n)) {
          PutDistinct(s.composed, id, n);
        }
      case WindowCloses(w) => CloseDistinct(s.composed, w);
      case _ =>
    }
  }

  /** What a step makes of the node at an id. */
  function NodeAfter(s: State, e: Event, id: Id): Option<Node> {
    match e
    case Composes(caller, at, kind, made) =>
      (match Compose(s, caller, at, kind, made).1
       case Failed(_) => NodeOf(s, id)
       case Composed(n) => if at == id then Some(n) else NodeOf(s, id))
    case Decomposes(caller, at) =>
      if at != id || NodeOf(s, id) == None then NodeOf(s, id)
      else
        var n := NodeOf(s, id).value;
        var refs := DropRef(n.refs, KeyOf(caller));
        if TotalRefs(refs) == 0 then None else Some(n.(refs := refs))
    case WindowCloses(w) => (match NodeOf(s, id) case None => None case Some(n) => AfterClose(n, w))
    case _ => NodeOf(s, id)
  }

  lemma StepNode(s: State, e: Event, id: Id)
    requires Distinct(s.composed)
    ensures NodeOf(Step(s, e), id) == NodeAfter(s, e, id)
  {
    hide TotalRefs, DropRef, AddRef, Admit, AfterClose;
    match e {
      case Composes(caller, at, kind, made) =>
        match Compose(s, caller, at, kind, made).1 {
          case Failed(_) =>
          case Composed(n) => PutFind(s.composed, at, n, id);
        }
      case Decomposes(caller, at) =>
        if NodeOf(s, at) != None {
          var n := NodeOf(s, at).value;
          PutFind(s.composed, at, n.(refs := DropRef(n.refs, KeyOf(caller))), id);
          RemoveFind(s.composed, at, id);
        }
      case WindowCloses(w) => CloseFind(s.composed, w, id);
      case _ =>
    }
  }

  lemma ComposeOk(s: State, caller: Option<Window>, id: Id, kind: string, made: Made)
    requires IdOk(s, id)
    ensures var r := Compose(s, caller, id, kind, made);
            r.1.Composed? ==> NodeOk(id, r.1.node) && r.1.node.epoch == EpochOf(r.0, id)
  {
    var r := Compose(s, caller, id, kind, made);
    if r.1.Failed? {
    } else if NodeOf(s, id) != None {
      assert r.1.node.epoch == EpochOf(r.0, id);
      AddRefOk(NodeOf(s, id).value.refs, KeyOf(caller));
      assert NodeOk(id, r.1.node);
    } else {
      OneRef(KeyOf(caller));
      assert r.1.node.epoch == EpochOf(r.0, id);
      assert RefsOk(r.1.node.refs);
      assert NodeOk(id, r.1.node);
    }
  }

  lemma DropOk(id: Id, n: Node, refs: Refs)
    requires NodeOk(id, n) && RefsOk(refs) && TotalRefs(refs) != 0
    requires forall v :: Find(refs, v) != None ==> Find(n.refs, v) != None
    ensures NodeOk(id, n.(refs := refs))
  {
  }

  lemma StepIdOk(s: State, e: Event, id: Id)
    requires Ok(s)
    ensures IdOk(Step(s, e), id)
  {
    assert IdOk(s, id);
    StepNode(s, e, id);
    hide TotalRefs, NodeOk, RefsOk, DropRef;
    match e {
      case Composes(caller, at, kind, made) =>
        assert IdOk(s, at);
        ComposeOk(s, caller, at, kind, made);
        hide Admit;
      case Decomposes(caller, at) =>
        if NodeOf(s, id) != None && at == id {
          var n := NodeOf(s, id).value;
          NodeRefs(id, n);
          DropRefOk(n.refs, KeyOf(caller));
          var refs := DropRef(n.refs, KeyOf(caller));
          if TotalRefs(refs) != 0 {
            DropOk(id, n, refs);
          }
        }
      case WindowCloses(w) =>
        if NodeOf(s, id) != None {
          var n := NodeOf(s, id).value;
          NodeRefs(id, n);
          RemoveRefOk(n.refs, w);
          var refs := Remove(n.refs, w);
          if TotalRefs(refs) != 0 {
            DropOk(id, n, refs);
          }
        }
      case _ =>
    }
  }

  lemma NodeRefs(id: Id, n: Node)
    requires NodeOk(id, n)
    ensures RefsOk(n.refs)
  {
  }

  lemma {:induction false} RunOk(kinds: set<string>, events: seq<Event>)
    ensures Ok(Run(kinds, events)) && Run(kinds, events).kinds == kinds
  {
    if events != [] {
      var n := |events| - 1;
      RunOk(kinds, events[..n]);
      StepDistinct(Run(kinds, events[..n]), events[n]);
      forall id ensures IdOk(Run(kinds, events), id) {
        StepIdOk(Run(kinds, events[..n]), events[n], id);
      }
    }
  }

  /** In every run each composed node has at least one reference, and every window counted in
      it holds at least one. */
  lemma PositiveRefs(kinds: set<string>, events: seq<Event>, id: Id)
    requires NodeOf(Run(kinds, events), id) != None
    ensures var n := NodeOf(Run(kinds, events), id).value;
            TotalRefs(n.refs) >= 1 && forall w :: Find(n.refs, w) != None ==> RefsOf(n.refs, w) >= 1
  {
    RunOk(kinds, events);
    assert IdOk(Run(kinds, events), id);
    NoRefs(NodeOf(Run(kinds, events), id).value.refs);
  }

  /** Nobody but its owner ever references a window-rooted node. */
  lemma Exclusive(kinds: set<string>, events: seq<Event>, id: Id, w: Window)
    requires NodeOf(Run(kinds, events), id) != None && "win/" <= id
    ensures var n := NodeOf(Run(kinds, events), id).value;
            n.owner != None && "win/" + n.owner.value + "/" <= id && (Find(n.refs, w) != None ==> n.owner == Some(w))
  {
    RunOk(kinds, events);
    assert IdOk(Run(kinds, events), id);
  }

  // ---- references, read off the events ----

  /** Who may name a node: anybody a camera's, and a window with an identity its own. */
  predicate MayName(caller: Option<Window>, id: Id) {
    if "win/" <= id then caller.Some? && caller.value != ANON && "win/" + caller.value + "/" <= id
    else "camera/" <= id
  }

  /** A composition succeeds exactly when the caller may name the node and, if it stands, owns it or
      it is shared; if it does not, its kind's materializer makes it, or it is an advertised camera
      of a kind without one. When it fails nothing changes. */
  lemma ComposeIff(s: State, caller: Option<Window>, id: Id, kind: string, made: Made)
    ensures var (t, r) := Compose(s, caller, id, kind, made);
            && (r.Composed? <==>
                  && MayName(caller, id)
                  && match NodeOf(s, id)
                     case Some(n) => "win/" <= id ==> n.owner == caller
                     case None => if kind in s.kinds then made.Shape? else !("win/" <= id) && id in s.advertised)
            && (r.Failed? ==> t == s)
            && (r.Composed? ==>
                  match NodeOf(s, id)
                  case Some(n) => r.node == n.(refs := r.node.refs)
                  case None =>
                    && r.node.kind == (if kind in s.kinds then made.kind else kind)
                    && (r.node.materialized <==> kind in s.kinds)
                    && r.node.owner == if "win/" <= id then caller else None)
  {
    hide AddRef, Put, Find;
  }

  predicate LastAdvertised(events: seq<Event>, id: Id) {
    events != [] &&
    var e := events[|events| - 1];
    if e == Advertises(id) then true else e != Unadvertises(id) && LastAdvertised(events[..|events| - 1], id)
  }

  /** The advertised pipes are those whose last announcement was no withdrawal. */
  lemma {:induction false} AdvertisedIff(kinds: set<string>, events: seq<Event>, id: Id)
    ensures id in Run(kinds, events).advertised <==> LastAdvertised(events, id)
  {
    if events != [] {
      AdvertisedIff(kinds, events[..|events| - 1], id);
      hide CloseNodes, CloseWork, Put, Remove, Admit, AddRef, DropRef;
    }
  }

  /** The successful compositions of a node by a window, less its decompositions, since the node
      went or the window closed. */
  function RefCount(kinds: set<string>, events: seq<Event>, id: Id, w: Window): nat {
    if events == [] then 0
    else
      var before, e := events[..|events| - 1], events[|events| - 1];
      var n := RefCount(kinds, before, id, w);
      match e
      case Composes(caller, at, kind, made) =>
        if at == id && KeyOf(caller) == w && Compose(Run(kinds, before), caller, at, kind, made).1.Composed? then n + 1
        else n
      case Decomposes(caller, at) => if at == id && KeyOf(caller) == w && n > 0 then n - 1 else n
      case WindowCloses(v) => if v == w then 0 else n
      case _ => n
  }

  /** How many references a window holds on a node. */
  function HeldBy(n: Option<Node>, w: Window): nat {
    match n case None => 0 case Some(m) => RefsOf(m.refs, w)
  }

  lemma StepHeld(s: State, e: Event, id: Id, w: Window)
    requires Ok(s)
    ensures var n := HeldBy(NodeOf(s, id), w);
            HeldBy(NodeOf(Step(s, e), id), w) ==
              match e
              case Composes(caller, at, kind, made) =>
                if at == id && KeyOf(caller) == w && Compose(s, caller, at, kind, made).1.Composed? then n + 1 else n
              case Decomposes(caller, at) => if at == id && KeyOf(caller) == w && n > 0 then n - 1 else n
              case WindowCloses(v) => if v == w then 0 else n
              case _ => n
  {
    StepNode(s, e, id);
    assert IdOk(s, id);
    hide Ok, Step, Find, TotalRefs;
    match e {
      case Composes(caller, at, kind, made) =>
        if at == id {
          ComposeHeld(s, caller, id, kind, made, w);
        }
      case Decomposes(caller, at) =>
        if at == id && NodeOf(s, id).Some? {
          DropRefOk(NodeOf(s, id).value.refs, KeyOf(caller));
          NoRefs(DropRef(NodeOf(s, id).value.refs, KeyOf(caller)));
        }
      case WindowCloses(v) =>
        if NodeOf(s, id).Some? {
          RemoveRefOk(NodeOf(s, id).value.refs, v);
          NoRefs(Remove(NodeOf(s, id).value.refs, v));
        }
      case _ =>
    }
  }

  lemma ComposeHeld(s: State, caller: Option<Window>, id: Id, kind: string, made: Made, w: Window)
    requires IdOk(s, id)
    ensures var (t, r) := Compose(s, caller, id, kind, made);
            r.Composed? ==>
              RefsOf(r.node.refs, w) == HeldBy(NodeOf(s, id), w) + if KeyOf(caller) == w then 1 else 0
  {
    hide Admit, Put, AddRef;
    var key := KeyOf(caller);
    if NodeOf(s, id).Some? {
      var refs := NodeOf(s, id).value.refs;
      AddRefOk(refs, key);
      assert RefsOf(AddRef(refs, key), w) == RefsOf(refs, w) + if key == w then 1 else 0;
    } else {
      OneRef(key);
      var one: Refs := [Entry(key, 1)];
      assert Find(one, w) == if w == key then Some(1) else None;
    }
  }

  /** In every run every window holds on every node exactly the references its compositions and
      decompositions say. */
  lemma {:induction false} RefsAreCounted(kinds: set<string>, events: seq<Event>, id: Id, w: Window)
    ensures HeldBy(NodeOf(Run(kinds, events), id), w) == RefCount(kinds, events, id, w)
  {
    if events != [] {
      var n := |events| - 1;
      RefsAreCounted(kinds, events[..n], id, w);
      RunOk(kinds, events[..n]);
      StepHeld(Run(kinds, events[..n]), events[n], id, w);
      hide Step, NodeOf, HeldBy, Compose, Ok;
    }
  }

  /** A node stands exactly while somebody holds a reference. */
  lemma StandsWhileHeld(kinds: set<string>, events: seq<Event>, id: Id)
    ensures NodeOf(Run(kinds, events), id).Some? <==> exists w :: RefCount(kinds, events, id, w) > 0
  {
    var found := NodeOf(Run(kinds, events), id);
    RunOk(kinds, events);
    assert IdOk(Run(kinds, events), id);
    forall w ensures HeldBy(found, w) == RefCount(kinds, events, id, w) {
      RefsAreCounted(kinds, events, id, w);
    }
    if found.Some? {
      var w := found.value.refs[0].key;
      assert Find(found.value.refs, w) != None;
      assert RefsOf(found.value.refs, w) >= 1;
      assert HeldBy(found, w) > 0;
      assert RefCount(kinds, events, id, w) > 0;
    }
    hide Run, RefCount, IdOk;
  }

  // ---- materializations and teardowns ----

  lemma ComposeStanding(s: State, caller: Option<Window>, at: Id, kind: string, made: Made, id: Id)
    ensures var (t, r) := Compose(s, caller, at, kind, made);
            Standing(t.works, id) - Standing(s.works, id) ==
              if r.Composed? && at == id && NodeOf(s, id) == None && r.node.materialized then 1 else 0
  {
    hide Admit, AddRef, Standing, Put;
    if made.Shape? {
      StandingConcat(s.works, [Materialize(made.kind, at)], id);
      StandingOne(Materialize(made.kind, at), id);
    }
  }

  /** What a step does to the books of an id: one more for a node materialized there, one less
      for a node torn down whose kind has a materializer. */
  lemma StepStanding(s: State, e: Event, id: Id)
    requires Distinct(s.composed)
    ensures var before, after := NodeOf(s, id), NodeOf(Step(s, e), id);
            Standing(Step(s, e).works, id) - Standing(s.works, id) ==
              if before == None && after != None && after.value.materialized then 1
              else if before != None && after == None && Owed(s.kinds, before) then -1 else 0
  {
    StepNode(s, e, id);
    hide TotalRefs, DropRef, Compose, Standing, Distinct, Find, Put, Remove, TeardownWork, CloseWork, CloseNodes;
    match e {
      case Composes(caller, at, kind, made) =>
        ComposeStanding(s, caller, at, kind, made, id);
        ComposeKeeps(s, caller, at, kind, made);
      case Decomposes(caller, at) =>
        if NodeOf(s, at) != None {
          var n := NodeOf(s, at).value;
          StandingConcat(s.works, TeardownWork(s.kinds, at, n), id);
          TeardownStanding(s.kinds, at, n, id);
        }
      case WindowCloses(w) =>
        StandingConcat(s.works, CloseWork(s.kinds, s.composed, w), id);
        CloseStanding(s.kinds, s.composed, w, id);
      case _ =>
    }
  }

  /** Composing never takes a node away, and referring to one leaves what it is. */
  lemma ComposeKeeps(s: State, caller: Option<Window>, at: Id, kind: string, made: Made)
    ensures var (t, r) := Compose(s, caller, at, kind, made);
            r.Composed? && NodeOf(s, at) != None ==> r.node == NodeOf(s, at).value.(refs := r.node.refs)
  {
    hide Admit, AddRef, Put;
  }

  predicate Live(n: Option<Node>) {
    n != None && n.value.materialized
  }

  /** How often a materialized node left an id whose returned kind has no materializer to tell. */
  function Leaked(kinds: set<string>, events: seq<Event>, id: Id): nat {
    if events == [] then 0
    else
      var n := |events| - 1;
      var before, after := NodeOf(Run(kinds, events[..n]), id), NodeOf(Run(kinds, events), id);
      Leaked(kinds, events[..n], id) + if Live(before) && before.value.kind !in kinds && after == None then 1 else 0
  }

  /** Over every run the materializations of an id less its teardowns are the materialized node
      standing there, if any, and the leaked ones; so once it is gone they match exactly when
      none leaked, and teardowns never outnumber materializations. */
  lemma {:induction false} TeardownsMatch(kinds: set<string>, events: seq<Event>, id: Id)
    ensures var s := Run(kinds, events);
            Standing(s.works, id) == Leaked(kinds, events, id) + if Live(NodeOf(s, id)) then 1 else 0
  {
    if events != [] {
      var n := |events| - 1;
      var s := Run(kinds, events[..n]);
      TeardownsMatch(kinds, events[..n], id);
      RunOk(kinds, events[..n]);
      StepStanding(s, events[n], id);
      StepLive(s, events[n], id);
      hide TotalRefs, DropRef, AddRef, Admit, Standing, Distinct, NodeOf, Step, Ok;
    }
  }

  /** A node that stays is materialized or not as before. */
  lemma StepLive(s: State, e: Event, id: Id)
    requires Distinct(s.composed)
    ensures var before, after := NodeOf(s, id), NodeOf(Step(s, e), id);
            before != None && after != None ==>
              after.value.materialized == before.value.materialized && after.value.kind == before.value.kind
  {
    StepNode(s, e, id);
    hide TotalRefs, DropRef, AddRef, Admit;
  }

  /** A node materialized in a step has the kind its materializer returned. */
  lemma StepKind(s: State, e: Event, id: Id)
    requires Distinct(s.composed) && (Live(NodeOf(s, id)) ==> NodeOf(s, id).value.kind in s.kinds)
    requires e.Composes? && e.made.Shape? ==> e.made.kind in s.kinds
    ensures var after := NodeOf(Step(s, e), id); Live(after) ==> after.value.kind in s.kinds
  {
    StepNode(s, e, id);
    hide TotalRefs, DropRef, AddRef, Admit, Step;
  }

  /** Materializers that return kinds which have a materializer leak nothing. */
  lemma {:induction false} RegisteredLeaksNothing(kinds: set<string>, events: seq<Event>, id: Id)
    requires forall i :: 0 <= i < |events| && events[i].Composes? && events[i].made.Shape? ==>
                         events[i].made.kind in kinds
    ensures Leaked(kinds, events, id) == 0
    ensures var n := NodeOf(Run(kinds, events), id); Live(n) ==> n.value.kind in kinds
  {
    if events != [] {
      hide TeardownWork, CloseWork;
      var n := |events| - 1;
      assert forall i :: 0 <= i < n ==> events[..n][i] == events[i];
      RegisteredLeaksNothing(kinds, events[..n], id);
      RunOk(kinds, events[..n]);
      StepKind(Run(kinds, events[..n]), events[n], id);
      hide Step, Ok, NodeOf, Distinct;
    }
  }

  /** A materialized node stands at the id whose kind has no materializer. */
  predicate Orphan(s: State, id: Id) {
    Live(NodeOf(s, id)) && NodeOf(s, id).value.kind !in s.kinds
  }

  /** An orphan stays one or leaks. */
  lemma {:induction false} OrphanStaysOrLeaks(kinds: set<string>, events: seq<Event>, i: nat, id: Id)
    requires i <= |events| && Orphan(Run(kinds, events[..i]), id)
    ensures Leaked(kinds, events, id) > 0 || Orphan(Run(kinds, events), id)
  {
    hide Step, NodeOf, Distinct, IdOk;
    if i == |events| {
      assert events[..i] == events;
    } else {
      var n := |events| - 1;
      assert events[..n][..i] == events[..i];
      OrphanStaysOrLeaks(kinds, events[..n], i, id);
      RunOk(kinds, events[..n]);
      RunOk(kinds, events);
      StepLive(Run(kinds, events[..n]), events[n], id);
    }
  }

  lemma {:induction false} LeakedGrows(kinds: set<string>, events: seq<Event>, i: nat, id: Id)
    requires i <= |events|
    ensures Leaked(kinds, events[..i], id) <= Leaked(kinds, events, id)
  {
    if i == |events| {
      assert events[..i] == events;
    } else {
      assert events[..|events| - 1][..i] == events[..i];
      LeakedGrows(kinds, events[..|events| - 1], i, id);
      hide Run, NodeOf;
    }
  }

  /** Nothing leaks at an id exactly when no node that stood there with a kind no materializer
      has was ever gone later, by its last reference or with its window. */
  lemma {:induction false} LeaksIff(kinds: set<string>, events: seq<Event>, id: Id)
    ensures Leaked(kinds, events, id) == 0 <==>
            forall i, j :: 0 <= i <= j <= |events| && Orphan(Run(kinds, events[..i]), id) ==>
                             NodeOf(Run(kinds, events[..j]), id) != None
  {
    if Leaked(kinds, events, id) == 0 {
      forall i, j | 0 <= i <= j <= |events| && Orphan(Run(kinds, events[..i]), id)
        ensures NodeOf(Run(kinds, events[..j]), id) != None
      {
        assert events[..j][..i] == events[..i];
        OrphanStaysOrLeaks(kinds, events[..j], i, id);
        LeakedGrows(kinds, events, j, id);
      }
    } else {
      var n := |events| - 1;
      assert events[..|events|] == events;
      RunOk(kinds, events[..n]);
      if Leaked(kinds, events[..n], id) > 0 {
        LeaksIff(kinds, events[..n], id);
        var i, j :| 0 <= i <= j <= n && Orphan(Run(kinds, events[..n][..i]), id)
                    && NodeOf(Run(kinds, events[..n][..j]), id) == None;
        assert events[..n][..i] == events[..i] && events[..n][..j] == events[..j];
      } else {
        assert Orphan(Run(kinds, events[..n]), id) && NodeOf(Run(kinds, events[..n + 1]), id) == None;
      }
    }
  }

  // ---- a closed window ----

  ghost predicate Free(s: State, w: Window, id: Id) {
    NodeOf(s, id) != None ==> NodeOf(s, id).value.owner != Some(w) && Find(NodeOf(s, id).value.refs, w) == None
  }

  lemma CloseFrees(s: State, w: Window, id: Id)
    requires Ok(s)
    ensures Free(Step(s, WindowCloses(w)), w, id)
  {
    StepNode(s, WindowCloses(w), id);
    assert IdOk(s, id);
    if NodeOf(s, id) != None {
      RemoveRefOk(NodeOf(s, id).value.refs, w);
    }
  }

  lemma StepFree(s: State, e: Event, w: Window, id: Id)
    requires Ok(s) && Free(s, w, id)
    requires e.Composes? ==> KeyOf(e.caller) != w
    ensures Free(Step(s, e), w, id)
  {
    StepNode(s, e, id);
    assert IdOk(s, id);
    hide TotalRefs, Admit;
    match e {
      case Composes(caller, at, kind, made) =>
        var r := Compose(s, caller, at, kind, made);
        if r.1.Composed? && at == id {
          if NodeOf(s, id) != None {
            AddRefOk(NodeOf(s, id).value.refs, KeyOf(caller));
            assert r.1.node.owner == NodeOf(s, id).value.owner;
          } else {
            OneRef(KeyOf(caller));
            assert r.1.node.owner == None || r.1.node.owner == caller;
            assert r.1.node.refs == [Entry(KeyOf(caller), 1)];
          }
          assert Find(r.1.node.refs, w) == None;
        }
      case Decomposes(caller, at) =>
        if NodeOf(s, id) != None {
          DropRefOk(NodeOf(s, id).value.refs, KeyOf(caller));
        }
      case WindowCloses(v) =>
        if NodeOf(s, id) != None {
          RemoveRefOk(NodeOf(s, id).value.refs, v);
        }
      case _ =>
    }
  }

  /** From its close on, a window that composes no more owns nothing and references nothing. */
  lemma {:induction false} ClosedWindowFree(kinds: set<string>, events: seq<Event>, i: nat, w: Window, id: Id)
    requires i < |events| && events[i] == WindowCloses(w)
    requires forall j :: i < j < |events| && events[j].Composes? ==> KeyOf(events[j].caller) != w
    ensures Free(Run(kinds, events), w, id)
  {
    var n := |events| - 1;
    RunOk(kinds, events[..n]);
    if i == n {
      CloseFrees(Run(kinds, events[..n]), w, id);
    } else {
      ClosedWindowFree(kinds, events[..n], i, w, id);
      StepFree(Run(kinds, events[..n]), events[n], w, id);
    }
  }

  // ---- epochs ----

  /** Every node that stands at an id is newer than epoch `e`, and so is every one to come. */
  ghost predicate Newer(s: State, id: Id, e: nat) {
    EpochOf(s, id) >= e && (NodeOf(s, id) != None ==> NodeOf(s, id).value.epoch > e)
  }

  lemma StepNewer(s: State, ev: Event, id: Id, e: nat)
    requires Ok(s) && Newer(s, id, e)
    ensures Newer(Step(s, ev), id, e)
  {
    StepNode(s, ev, id);
    hide TotalRefs, DropRef, AddRef, Admit;
  }

  lemma StepEpoch(s: State, ev: Event, id: Id)
    ensures EpochOf(Step(s, ev), id) >= EpochOf(s, id)
  {
    hide TotalRefs, DropRef, AddRef, Admit, Put, Remove;
  }

  lemma {:induction false} EpochsGrow(kinds: set<string>, events: seq<Event>, i: nat, id: Id)
    requires i <= |events|
    ensures EpochOf(Run(kinds, events[..i]), id) <= EpochOf(Run(kinds, events), id)
  {
    if i == |events| {
      assert events[..i] == events;
    } else {
      var n := |events| - 1;
      assert events[..n][..i] == events[..i];
      EpochsGrow(kinds, events[..n], i, id);
      StepEpoch(Run(kinds, events[..n]), events[n], id);
    }
  }

  /** Once a node has gone, no later node at its id carries its epoch or an older one. */
  lemma {:induction false} EpochNeverReused(kinds: set<string>, events: seq<Event>, i: nat, j: nat, id: Id)
    requires i <= j <= |events|
    requires NodeOf(Run(kinds, events[..i]), id) != None && NodeOf(Run(kinds, events[..j]), id) == None
    ensures Newer(Run(kinds, events), id, NodeOf(Run(kinds, events[..i]), id).value.epoch)
  {
    hide Step, NodeOk, Distinct, NodeOf;
    if j == |events| {
      assert events[..j] == events;
      RunOk(kinds, events[..i]);
      assert IdOk(Run(kinds, events[..i]), id);
      EpochsGrow(kinds, events, i, id);
    } else {
      var n := |events| - 1;
      assert events[..n][..i] == events[..i] && events[..n][..j] == events[..j];
      EpochNeverReused(kinds, events[..n], i, j, id);
      RunOk(kinds, events[..n]);
      StepNewer(Run(kinds, events[..n]), events[n], id, NodeOf(Run(kinds, events[..i]), id).value.epoch);
    }
  }

  // ---- the session in place ----

  class Composer {
    const kinds: set<string>
    var advertised: set<Id>
    var composed: Nodes
    var nodeEpochs: map<Id, nat>
    var works: seq<Work>

    ghost function Abs(): State
      reads this
    {
      State(kinds, advertised, composed, nodeEpochs, works)
    }

    constructor (kinds: set<string>)
      ensures Abs() == State(kinds, {}, [], map[], [])
    {
      this.kinds, advertised, composed, nodeEpochs, works := kinds, {}, [], map[], [];
    }

    method ComposeNode(caller: Option<Window>, id: Id, kind: string, made: Made) returns (r: Outcome)
      modifies this
      ensures (Abs(), r) == Compose(old(Abs()), caller, id, kind, made)
    {
      var windowKey := match caller case None => ANON case Some(w) => w;
      var winRooted := "win/" <= id;
      if winRooted {
        if caller == None || caller.value == ANON {
          return Failed(NoIdentity);
        }
        if !("win/" + caller.value + "/" <= id) {
          return Failed(OutsideNamespace);
        }
      } else if !("camera/" <= id) {
        return Failed(BadRoot);
      }
      var existing := Find(composed, id);
      if existing != None {
        var n := existing.value;
        if winRooted && n.owner != caller {
          return Failed(OwnedElsewhere);
        }
        var have := match Find(n.refs, windowKey) case None => 0 case Some(c) => c;
        n := n.(refs := Put(n.refs, windowKey, have + 1));
        composed := Put(composed, id, n);
        return Composed(n);
      }
      var shape := kind;
      var materialized := false;
      if kind in kinds {
        if made == Threw {
          return Failed(MaterializerThrew);
        }
        shape := made.kind;
        works := works + [Materialize(shape, id)];
        materialized := true;
      } else if winRooted || id !in advertised {
        return Failed(NoMaterializer);
      }
      var epoch := (if id in nodeEpochs then nodeEpochs[id] else 0) + 1;
      nodeEpochs := nodeEpochs[id := epoch];
      var n := Node(shape, epoch, if winRooted then caller else None, [Entry(windowKey, 1)], materialized);
      composed := Put(composed, id, n);
      r := Composed(n);
    }

    method TeardownNode(id: Id, n: Node)
      modifies this`works, this`composed
      ensures works == old(works) + TeardownWork(kinds, id, n) && composed == Remove(old(composed), id)
    {
      if n.materialized && n.kind in kinds {
        works := works + [Teardown(n.kind, id)];
      }
      composed := Remove(composed, id);
    }

    method DecomposeNode(caller: Option<Window>, id: Id)
      requires Distinct(composed)
      modifies this
      ensures Abs() == Decompose(old(Abs()), caller, id)
    {
      var windowKey := match caller case None => ANON case Some(w) => w;
      var found := Find(composed, id);
      if found == None {
        return;
      }
      var n := found.value;
      var have := match Find(n.refs, windowKey) case None => 0 case Some(c) => c;
      var m := n.(refs := if have <= 1 then Remove(n.refs, windowKey) else Put(n.refs, windowKey, have - 1));
      composed := Put(composed, id, m);
      if TotalRefs(m.refs) == 0 {
        TeardownNode(id, m);
        RemovePut(old(composed), id, m);
      }
    }

    /** Tear down what the window owns and drop what it references, node by node. */
    method OnWindowClosed(w: Window)
      requires Distinct(composed)
      modifies this`composed, this`works
      ensures Abs() == Step(old(Abs()), WindowCloses(w))
    {
      hide Joined, SweepNodes, SweepWorks, Kept, Distinct, CloseNodes, CloseWork;
      var todo := composed;
      ghost var done: Nodes := [];
      SweepStart(kinds, todo, works, w);
      while todo != []
        invariant Distinct(composed) && composed == Joined(done, todo)
        invariant SweepNodes(done, todo, w) == CloseNodes(old(composed), w)
        invariant SweepWorks(kinds, works, todo, w) == old(works) + CloseWork(kinds, old(composed), w)
        decreases |todo|
      {
        ghost var next := Joined(done, Kept(todo[0], w));
        CloseNext(w, done, todo);
        todo, done := todo[1..], next;
      }
      SweepEnd(kinds, done, works, w);
    }

    method CloseNext(w: Window, ghost done: Nodes, todo: Nodes)
      requires Distinct(composed) && todo != [] && composed == Joined(done, todo)
      modifies this`composed, this`works
      ensures var next := Joined(done, Kept(todo[0], w));
              && Distinct(composed) && composed == Joined(next, todo[1..])
              && SweepNodes(next, todo[1..], w) == SweepNodes(done, todo, w)
      ensures SweepWorks(kinds, works, todo[1..], w) == SweepWorks(kinds, old(works), todo, w)
    {
      hide Kept, SweepWork, Distinct, CloseNodes, CloseWork, Put, Remove, Find;
      assert todo == [todo[0]] + todo[1..];
      SweepOn(kinds, done, todo, works, w);
      CloseOne(w, done, todo[0].key, todo[0].value, todo[1..]);
    }

    /** One node of the sweep, between those already swept and the rest. */
    method CloseOne(w: Window, ghost done: Nodes, id: Id, n: Node, ghost rest: Nodes)
      requires Distinct(composed) && composed == done + ([Entry(id, n)] + rest)
      modifies this`composed, this`works
      ensures Distinct(composed)
      ensures composed == done + Kept(Entry(id, n), w) + rest
      ensures works == old(works) + SweepWork(kinds, Entry(id, n), w)
    {
      hide TotalRefs, Distinct, Find, Put, Remove;
      MiddleFind(done, id, n, rest);
      assert done + [] + rest == done + rest;
      if n.owner == Some(w) {
        TeardownNode(id, n);
      } else if Find(n.refs, w) != None {
        var m := n.(refs := Remove(n.refs, w));
        composed := Put(composed, id, m);
        MiddlePut(done, id, n, m, rest);
        assert done + [Entry(id, m)] + rest == done + ([Entry(id, m)] + rest);
        if TotalRefs(m.refs) == 0 {
          MiddleFind(done, id, m, rest);
          TeardownNode(id, m);
        }
      } else {
        assert done + [Entry(id, n)] + rest == done + ([Entry(id, n)] + rest);
      }
    }
  }

  lemma {:induction false} RemovePut(nodes: Nodes, id: Id, n: Node)
    ensures Remove(Put(nodes, id, n), id) == Remove(nodes, id)
  {
    if nodes != [] && nodes[0].key != id {
      RemovePut(nodes[1..], id, n);
    }
  }

  lemma {:induction false} MiddleFind(a: Nodes, id: Id, n: Node, b: Nodes)
    requires Distinct(a + ([Entry(id, n)] + b))
    ensures Find(a + ([Entry(id, n)] + b), id) == Some(n) && Remove(a + ([Entry(id, n)] + b), id) == a + b
    ensures Distinct(a + b)
  {
    var m := a + ([Entry(id, n)] + b);
    if a == [] {
      assert m == [Entry(id, n)] + b && a + b == b;
    } else {
      assert m[1..] == a[1..] + ([Entry(id, n)] + b);
      MiddleFind(a[1..], id, n, b);
      assert a + b == [a[0]] + (a[1..] + b);
      assert (a + b)[1..] == a[1..] + b;
      RemoveFind(m[1..], id, a[0].key);
    }
  }

  lemma DistinctTail(m: Nodes)
    requires Distinct(m) && m != []
    ensures Distinct(m[1..]) && Find(m[1..], m[0].key) == None
  {
  }

  lemma {:induction false} MiddlePut(a: Nodes, id: Id, n: Node, m: Node, b: Nodes)
    requires Distinct(a + ([Entry(id, n)] + b))
    ensures Put(a + ([Entry(id, n)] + b), id, m) == a + ([Entry(id, m)] + b) && Distinct(a + ([Entry(id, m)] + b))
  {
    hide Distinct;
    var w := a + ([Entry(id, n)] + b);
    PutDistinct(w, id, m);
    if a == [] {
      assert w == [Entry(id, n)] + b && a + ([Entry(id, m)] + b) == [Entry(id, m)] + b;
    } else {
      assert w[1..] == a[1..] + ([Entry(id, n)] + b);
      DistinctTail(w);
      MiddleFind(a[1..], id, n, b);
      MiddlePut(a[1..], id, n, m, b);
      assert a + ([Entry(id, m)] + b) == [a[0]] + (a[1..] + ([Entry(id, m)] + b));
    }
  }
}
