/**
 Which window hears which change. Every window has one listener per document it opened, made
 on first use and handed to the authority as the one to skip on the window's own patches.
 */
module StoreMain {
  import opened Options

  datatype Entry = Entry(window: nat, path: string)

  class StoreMain {
    /** The listeners the authority holds per document. */
    var listeners: map<string, set<nat>>
    /** Per window, the listener of every document it opened. */
    var renderers: map<nat, map<string, nat>>
    /** Whom a listener forwards to; listener identities are never reused. */
    var made: seq<Entry>

    predicate Opened(w: nat, path: string)
      reads this
    {
      w in renderers && path in renderers[w]
    }

    /** A window's listener for a document forwards to it and is subscribed. */
    ghost predicate Linked(w: nat, path: string)
      reads this
      requires Opened(w, path)
    {
      var l := renderers[w][path];
      l < |made| && made[l] == Entry(w, path) && path in listeners && l in listeners[path]
    }

    /** A subscribed listener is some window's listener for the document. */
    ghost predicate Backed(path: string, l: nat)
      reads this
    {
      l < |made| && made[l].path == path && Opened(made[l].window, path) && renderers[made[l].window][path] == l
    }

    /** Windows and authority agree: a listener is subscribed to a document exactly when it is
        some window's listener for it, and it forwards to that window. */
    ghost predicate Valid()
      reads this
    {
      && (forall w, path :: Opened(w, path) ==> Linked(w, path))
      && (forall path, l :: path in listeners && l in listeners[path] ==> Backed(path, l))
    }

    constructor ()
      ensures Valid() && forall w, path :: !Opened(w, path)
    {
      listeners, renderers, made := map[], map[], [];
    }

    /** The stable listener of a window for a document. */
    method RendererListener(w: nat, path: string) returns (l: nat)
      requires Valid()
      modifies this
      ensures Valid() && Opened(w, path) && renderers[w][path] == l
      ensures forall v, p :: Opened(v, p) <==> (old(Opened(v, p)) || (v == w && p == path))
      ensures old(Opened(w, path)) ==> renderers == old(renderers) && listeners == old(listeners) && made == old(made)
    {
      if w !in renderers {
        renderers := renderers[w := map[]];
      }
      if path in renderers[w] {
        return renderers[w][path];
      }
      l := |made|;
      made := made + [Entry(w, path)];
      var others: set<nat> := if path in listeners then listeners[path] else {};
      listeners := listeners[path := others + {l}];
      var mine: map<string, nat> := renderers[w][path := l];
      renderers := renderers[w := mine];
      forall v, p ensures Opened(v, p) <==> (old(Opened(v, p)) || (v == w && p == path)) {
        assert v != w && v in renderers ==> v in old(renderers) && renderers[v] == old(renderers)[v];
      }
      forall v, p | Opened(v, p) ensures Linked(v, p) {
        if v != w || p != path {
          assert old(Linked(v, p));
        }
      }
      forall p, k | p in listeners && k in listeners[p] ensures Backed(p, k) {
        if p != path || k != l {
          assert old(Backed(p, k));
        }
      }
    }

    /** The origin a notification skips: the window behind the excepted listener, if any. */
    ghost predicate Skips(except: Option<nat>, w: nat)
      reads this
    {
      except.Some? && except.value < |made| && made[except.value].window == w
    }

    /** Call every listener of the document but the excepted one. */
    method NotifyExcept(path: string, except: Option<nat>) returns (told: multiset<nat>)
      requires Valid() && (except.Some? ==> path in listeners && except.value in listeners[path])
      ensures forall w :: told[w] == if Opened(w, path) && !Skips(except, w) then 1 else 0
    {
      told := multiset{};
      assert forall w :: Opened(w, path) ==> Linked(w, path);
      if path !in listeners {
        return;
      }
      var rest := listeners[path];
      assert except.Some? ==> Backed(path, except.value);
      while rest != {}
        invariant rest <= listeners[path]
        invariant forall w :: told[w] ==
                    if Opened(w, path) && renderers[w][path] !in rest
                        && Some(renderers[w][path]) != except then 1 else 0
        decreases rest
      {
        var l :| l in rest;
        assert Backed(path, l);
        rest := rest - {l};
        forall w | Opened(w, path) ensures renderers[w][path] == l <==> made[l].window == w {
          assert Linked(w, path);
        }
        if Some(l) != except {
          told := told + multiset{made[l].window};
        }
      }
    }

    /** A window's patch is pushed exactly once to every other window that opened the
        document, and never back to itself. */
    method BroadcastPatch(w: nat, path: string) returns (told: multiset<nat>)
      requires Valid()
      modifies this
      ensures Valid() && Opened(w, path)
      ensures forall v :: told[v] == if v != w && old(Opened(v, path)) then 1 else 0
    {
      var l := RendererListener(w, path);
      told := NotifyExcept(path, Some(l));
    }

    /** A clear is pushed to every other window that opened the document, whether or not the
        clearing window ever did, and opens it for nobody. */
    method BroadcastClear(w: nat, path: string) returns (told: multiset<nat>)
      requires Valid()
      ensures forall v :: told[v] == if v != w && Opened(v, path) then 1 else 0
    {
      var l: Option<nat> := None;
      if w in renderers && path in renderers[w] {
        assert Linked(w, path);
        l := Some(renderers[w][path]);
      }
      told := NotifyExcept(path, l);
    }

    /** A closed window's listeners are all unsubscribed, and nobody else's are. */
    method DropRenderer(w: nat)
      requires Valid()
      modifies this
      ensures Valid() && forall v, p :: Opened(v, p) <==> old(Opened(v, p)) && v != w
    {
      if w !in renderers {
        return;
      }
      var rest := renderers[w].Keys;
      while rest != {}
        invariant renderers == old(renderers) && made == old(made) && rest <= renderers[w].Keys
        invariant listeners.Keys == old(listeners.Keys)
        invariant forall p :: p in listeners ==>
                    listeners[p] == if p in renderers[w].Keys - rest then old(listeners)[p] - {renderers[w][p]}
                    else old(listeners)[p]
        decreases rest
      {
        var p :| p in rest;
        assert Opened(w, p) && old(Linked(w, p));
        rest := rest - {p};
        listeners := listeners[p := listeners[p] - {renderers[w][p]}];
      }
      renderers := renderers - {w};
      forall p, l | p in listeners && l in listeners[p] ensures Backed(p, l) {
        assert old(Backed(p, l));
      }
      forall v, p | Opened(v, p) ensures Linked(v, p) {
        assert old(Linked(v, p)) && (old(Opened(w, p)) ==> old(Linked(w, p)));
      }
    }
  }
}
