/**
 Any number of connections in one process, sharing the registry `contexts_`, and what holds in
 every run of them.
 */
module World {
  import opened Options
  import opened Operations
  import opened Lifecycle
  import opened Invariants
  import opened Steps
  import T = HandleTable
  import P = PollLink

  /** The connections share one registry; the copy inside each one's own record is not used. */
  datatype World = World(shared: Shared, wraps: map<WrapId, Wrap>)

  const EMPTY_WORLD := World(Shared(map[], {}), map[])

  datatype Action = Construct(self: WrapId) | Enter(self: WrapId, event: Event)

  /** Connection `id` as its member functions see it. */
  function Focus(w: World, id: WrapId): Wrap
    requires id in w.wraps
  {
    w.wraps[id].(shared := w.shared)
  }

  function Next(w: World, a: Action): World {
    match a
    case Construct(id) => if id in w.wraps then w else w.(wraps := w.wraps[id := NewWrap(id, w.shared)])
    case Enter(id, event) =>
      if id !in w.wraps then w
      else
        var t := Step(Focus(w, id), event);
        World(t.shared, w.wraps[id := t])
  }

  function Run(w: World, actions: seq<Action>): World
    decreases actions
  {
    if actions == [] then w else Run(Next(w, actions[0]), actions[1..])
  }

  ghost predicate Valid(w: World) {
    && (forall id :: id in w.wraps ==> w.wraps[id].self == id && Steady(Focus(w, id), {}))
    && (forall c :: c in w.shared.contexts ==> w.shared.contexts[c] in w.wraps && c in w.shared.live)
  }

  // ---- Every run is valid -----------------------------------------------------------------

  /** What any step, taken by whichever connection, does to the one being watched. */
  ghost predicate Onward(s: Wrap, t: Wrap) {
    && t.self == s.self
    && Remembers(s.ledger, t.ledger)
    && Lasting(s, t)
    && Rank(s) <= Rank(t)
    && (Rank(s) >= DISCONNECTING ==> NoNewSuccess(s.ledger, t.ledger))
  }

  lemma OnwardTrans(a: Wrap, b: Wrap, c: Wrap)
    requires Onward(a, b) && Onward(b, c)
    ensures Onward(a, c)
  {
    RemembersTrans(a.ledger, b.ledger, c.ledger);
    LastingTrans(a, b, c);
    if Rank(a) >= DISCONNECTING {
      NoNewSuccessTrans(a.ledger, b.ledger, c.ledger);
    }
  }

  lemma BystanderOnward(s: Wrap, shared: Shared)
    ensures Onward(s, s.(shared := shared))
  {
  }

  /** A step of one connection leaves the others steady. */
  lemma NeighbourSteady(u: Wrap, t: Wrap, s: Wrap)
    requires s.shared == u.shared && s.self != u.self
    ensures Steady(u, {}) && Kept(u, t) && Steady(s, {}) ==> Steady(s.(shared := t.shared), {})
  {
    hide LedgerInv, T.TableInv, P.LinkInv, Remembers, NoNewSuccess;
  }

  lemma NewWrapSteady(id: WrapId, shared: Shared)
    requires forall c :: c in shared.contexts ==> shared.contexts[c] != id && c in shared.live
    ensures Steady(NewWrap(id, shared), {})
  {
    T.EmptyTable();
  }

  lemma SteadyRoutes(s: Wrap)
    requires Steady(s, {})
    ensures forall c :: c in s.shared.contexts ==> c in s.shared.live
  {
  }

  lemma KeptParts(s: Wrap, t: Wrap)
    requires Kept(s, t)
    ensures Steady(t, {}) && Evolves(s, t) && Onward(s, t) && t.self == s.self
    ensures forall c :: c in t.shared.contexts && t.shared.contexts[c] != s.self ==>
      c in s.shared.contexts && s.shared.contexts[c] == t.shared.contexts[c]
  {
  }

  /** All connections of `w` are still there in `n` and have moved on. */
  ghost predicate AllOnward(w: World, n: World) {
    forall id :: id in w.wraps ==> id in n.wraps && Onward(Focus(w, id), Focus(n, id))
  }

  lemma EnterValid(w: World, id: WrapId, event: Event)
    requires Valid(w)
    ensures id in w.wraps ==> Valid(Next(w, Enter(id, event))) && AllOnward(w, Next(w, Enter(id, event)))
  {
    hide Steady, Step, Evolves, Kept, Onward;
    if id in w.wraps {
      var u := Focus(w, id);
      var t := Step(u, event);
      var n := Next(w, Enter(id, event));
      StepKeeps(u, event);
      KeptParts(u, t);
      SteadyRoutes(t);
      assert Focus(n, id) == t;
      forall i | i in w.wraps && i != id
        ensures Steady(Focus(n, i), {}) && Onward(Focus(w, i), Focus(n, i))
      {
        NeighbourSteady(u, t, Focus(w, i));
        BystanderOnward(Focus(w, i), t.shared);
      }
    }
  }

  lemma NextValid(w: World, a: Action)
    requires Valid(w)
    ensures Valid(Next(w, a))
    ensures AllOnward(w, Next(w, a))
  {
    hide Steady, Step, Onward;
    forall i | i in w.wraps ensures Onward(Focus(w, i), Focus(w, i)) {
      BystanderOnward(Focus(w, i), w.shared);
    }
    match a
    case Construct(id) =>
      if id !in w.wraps {
        NewWrapSteady(id, w.shared);
      }
    case Enter(id, event) =>
      if id in w.wraps {
        EnterValid(w, id, event);
      }
  }

  lemma {:induction false} RunValid(w: World, actions: seq<Action>)
    requires Valid(w)
    ensures Valid(Run(w, actions))
    ensures AllOnward(w, Run(w, actions))
    decreases actions
  {
    if actions == [] {
      forall i | i in w.wraps ensures Onward(Focus(w, i), Focus(w, i)) {
        BystanderOnward(Focus(w, i), w.shared);
      }
    } else {
      var n := Next(w, actions[0]);
      NextValid(w, actions[0]);
      RunValid(n, actions[1..]);
      forall i | i in w.wraps ensures i in Run(w, actions).wraps && Onward(Focus(w, i), Focus(Run(w, actions), i)) {
        OnwardTrans(Focus(w, i), Focus(n, i), Focus(Run(w, actions), i));
      }
    }
  }

  /** Everything reachable is valid. */
  lemma ReachableValid(actions: seq<Action>)
    ensures Valid(Run(EMPTY_WORLD, actions))
  {
    RunValid(EMPTY_WORLD, actions);
  }
}
