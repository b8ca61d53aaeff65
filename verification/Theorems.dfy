/**
 What holds of every connection in every run: the main results about the lifecycle.
 */
module Theorems {
  import opened Options
  import opened Texts
  import opened Operations
  import opened Lifecycle
  import opened Invariants
  import opened Steps
  import opened World
  import T = HandleTable
  import P = PollLink
  import D = Diagnostics

  ghost predicate Reachable(w: World) {
    exists actions :: w == Run(EMPTY_WORLD, actions)
  }

  lemma ReachableSteady(w: World, id: WrapId)
    requires Reachable(w) && id in w.wraps
    ensures Valid(w) && Steady(Focus(w, id), {})
  {
    var actions :| w == Run(EMPTY_WORLD, actions);
    ReachableValid(actions);
  }

  // ---- Memory -----------------------------------------------------------------------------

  /** No run ever uses, settles or frees an operation wrongly, destroys a context twice or with
      an open promise behind it, or calls into libsmb2 on a dead context. */
  lemma NoFaults(w: World, id: WrapId)
    requires Reachable(w) && id in w.wraps
    ensures w.wraps[id].ledger.faults == {} && w.wraps[id].faults == {}
  {
    ReachableSteady(w, id);
  }

  /** An operation libsmb2 may still complete is allocated and on exactly one collection, once;
      and while the context lives every allocated operation is still owed its callback. */
  lemma OutstandingIsOwned(w: World, id: WrapId, op: OpId)
    requires Reachable(w) && id in w.wraps
    ensures var m := w.wraps[id].ledger;
      && (op in m.outstanding ==> op in m.operations)
      && (op in m.operations <==> op in m.pending || op in m.deferred)
      && !(op in m.pending && op in m.deferred)
      && m.deferred[op] <= 1
      && (w.wraps[id].context.Some? && op in m.operations ==> op in m.outstanding)
      && (w.wraps[id].context.None? ==> op !in m.outstanding)
  {
    ReachableSteady(w, id);
    assert Focus(w, id).ledger == w.wraps[id].ledger;
  }

  /** Every operation ever allocated is either still allocated or has been deleted once. */
  lemma FreedExactlyOnce(w: World, id: WrapId, op: OpId)
    requires Reachable(w) && id in w.wraps && op in w.wraps[id].ledger.created
    ensures var m := w.wraps[id].ledger;
      m.deleted[op] == if op in m.operations then 0 else 1
  {
    ReachableSteady(w, id);
    assert Focus(w, id).ledger == w.wraps[id].ledger;
  }

  // ---- Promises ---------------------------------------------------------------------------

  /** A promise is settled at most once; one still open belongs to a pending operation. */
  lemma SettledExactlyOnce(w: World, id: WrapId, op: OpId)
    requires Reachable(w) && id in w.wraps && op in w.wraps[id].ledger.promises
    ensures var m := w.wraps[id].ledger;
      && |m.promises[op].outcomes| <= 1
      && (m.promises[op].outcomes == [] <==> Unsettled(m, op))
      && (Unsettled(m, op) ==> op in m.pending)
  {
    ReachableSteady(w, id);
    var s := Focus(w, id);
    assert s.ledger == w.wraps[id].ledger;
    Membership(s.ledger, {}, s.cleanupRef);
  }

  /** A fatal error, whatever fires while the context dies, leaves every operation settled once
      and freed once, and nothing behind. */
  lemma FatalSettlesAndFrees(w: World, id: WrapId, script: Script, op: OpId)
    requires Reachable(w) && id in w.wraps && op in w.wraps[id].ledger.operations
    ensures var t := HandleFatal(Focus(w, id), script);
      && t.ledger.faults == {} && t.faults == {}
      && t.ledger.operations == map[] && t.ledger.pending == {} && t.ledger.deferred == multiset{}
      && t.context == None && t.link.poll == None
      && t.files.entries == map[] && t.dirs.entries == map[]
      && t.ledger.deleted[op] == 1
      && op in t.ledger.promises
      && |t.ledger.promises[op].outcomes| == 1
      && (Unsettled(w.wraps[id].ledger, op) ==> t.ledger.promises[op].outcomes == [Rejected(ConnectionLost)])
  {
    ReachableSteady(w, id);
    var s := Focus(w, id);
    Membership(s.ledger, {}, s.cleanupRef);
    SteadyBreakable(s, {});
    FatalEffect(s, script);
    var t := HandleFatal(s, script);
    FatalAccounts(s, t, op);
  }

  lemma FatalAccounts(s: Wrap, t: Wrap, op: OpId)
    requires Wrecked(s, t) && LedgerInv(s.ledger, {}, s.cleanupRef)
    requires op in s.ledger.operations
    ensures t.ledger.deleted[op] == 1 && op in t.ledger.promises && |t.ledger.promises[op].outcomes| == 1
    ensures Unsettled(s.ledger, op) ==> t.ledger.promises[op].outcomes == [Rejected(ConnectionLost)]
  {
  }

  /** Whenever a callback or a call rejects an open operation, the array attached to the error is a
      permutation of what is pending, the rejected operation first. */
  lemma RejectionListing(s: Wrap, busy: set<OpId>, op: OpId, ids: seq<OpId>)
    requires Steady(s, busy) && Unsettled(s.ledger, op)
    requires D.Listing(s.ledger.operations, s.ledger.pending, Some(op), ids)
    ensures multiset(ids) == multiset(s.ledger.pending) && ids[0] == op
  {
    SoundMembership(s);
    hide Steady;
    D.ListingIsPermutation(s.ledger.operations, s.ledger.pending, op, ids);
  }

  /** In every run: no rejection has ever been of an operation that was not pending, and the array
      of the next one is such a permutation. */
  lemma RejectionsListPending(w: World, id: WrapId, op: OpId, ids: seq<OpId>)
    requires Reachable(w) && id in w.wraps
    ensures var m := w.wraps[id].ledger;
      && UnlistedRejection !in m.faults
      && (Unsettled(m, op) && D.Listing(m.operations, m.pending, Some(op), ids) ==>
            multiset(ids) == multiset(m.pending) && ids[0] == op)
  {
    hide Steady, D.Listing;
    NoFaults(w, id);
    ReachableSteady(w, id);
    var s := Focus(w, id);
    if Unsettled(s.ledger, op) && D.Listing(s.ledger.operations, s.ledger.pending, Some(op), ids) {
      RejectionListing(s, {}, op, ids);
    }
  }

  // ---- Garbage collection -----------------------------------------------------------------

  /** The reference count is what is pending plus the cleanup reference; so once it is zero
      nothing is pending and, unless a cleanup could not be scheduled, no callback at all can
      still reach the wrapper.  Its destructor then leaves nothing behind. */
  lemma CollectionIsSafe(w: World, id: WrapId)
    requires Reachable(w) && id in w.wraps
    ensures var s := w.wraps[id];
      && s.ledger.refs == |s.ledger.pending| + (if s.cleanupRef then 1 else 0)
      && (s.ledger.deferred != multiset{} && !s.scheduleFailed ==> s.cleanupRef)
      && (s.ledger.refs == 0 ==> s.ledger.pending == {})
      && (s.ledger.refs == 0 && !s.scheduleFailed ==> s.ledger.operations == map[] && s.ledger.outstanding == {})
  {
    hide Steady;
    ReachableSteady(w, id);
    UnreferencedIsQuiet(w.wraps[id], w.shared);
  }

  lemma UnreferencedIsQuiet(s: Wrap, shared: Shared)
    requires Steady(s.(shared := shared), {})
    ensures s.ledger.refs == |s.ledger.pending| + (if s.cleanupRef then 1 else 0)
    ensures s.ledger.deferred != multiset{} && !s.scheduleFailed ==> s.cleanupRef
    ensures s.ledger.refs == 0 ==> s.ledger.pending == {}
    ensures s.ledger.refs == 0 && !s.scheduleFailed ==> s.ledger.operations == map[] && s.ledger.outstanding == {}
  {
    Membership(s.ledger, {}, s.cleanupRef);
    hide Promised, Accounted, T.TableInv, P.LinkInv;
    if s.ledger.refs == 0 && !s.scheduleFailed {
      assert |s.ledger.pending| == 0;
      assert s.ledger.deferred == multiset{};
      assert forall x :: x !in s.ledger.operations;
    }
  }

  lemma DestructorLeavesNothing(w: World, id: WrapId, script: Script)
    requires Reachable(w) && id in w.wraps && w.wraps[id].ledger.refs == 0
    ensures var t := Finalize(Focus(w, id), script);
      && t.ledger.operations == map[] && t.ledger.faults == {} && t.faults == {}
      && t.context == None && t.link.poll == None
      && t.ledger.promises == w.wraps[id].ledger.promises
      && (!w.wraps[id].scheduleFailed ==> t.timer.mode == Off)
  {
    ReachableSteady(w, id);
    var s := Focus(w, id);
    CollectionIsSafe(w, id);
    CollectedKeeps(s, script);
    if !s.scheduleFailed {
      UnownedDestructor(s, script);
    }
  }

  /** The destructor stops the timer but never closes its libuv handle: the handle remains in the
      event loop exactly when it was initialised before, whatever fires while the context dies. */
  lemma DestructorKeepsTimerHandle(w: World, id: WrapId, script: Script)
    requires Reachable(w) && id in w.wraps && w.wraps[id].ledger.refs == 0
    ensures Finalize(Focus(w, id), script).timer.initialized <==> w.wraps[id].timer.initialized
    ensures w.wraps[id].context.Some? ==> w.wraps[id].timer.initialized
  {
    ReachableSteady(w, id);
    var s := Focus(w, id);
    CollectableIsQuiet(s);
    ContextHasTimer(s);
    hide Steady, Reachable, Sound, Routed, AllSettled, CleanupContext;
    CleanupEffect(s, script);
  }

  lemma ContextHasTimer(s: Wrap)
    requires Steady(s, {})
    ensures s.context.Some? ==> s.timer.initialized
  {
  }

  /** When libsmb2 owes nothing, the destructor cannot be interrupted. */
  lemma UnownedDestructor(s: Wrap, script: Script)
    requires Steady(s, {}) && s.ledger.outstanding == {}
    ensures Finalize(s, script).timer.mode == Off
  {
    var s1 := Dismantle(s);
    if s.context.Some? {
      SilentScript(Marked(s1, s.context.value), s.context.value, script, true);
      assert Destroy(s1, s.context.value, script).timer == s1.timer;
      hide RunScript;
    }
  }

  // ---- The disconnect barrier -------------------------------------------------------------

  /** Disconnect rejects at once whatever was pending, and by itself lets nothing succeed. */
  lemma DisconnectRejectsAll(s: Wrap, now: nat, reply: Reply, rc: int, script: Script)
    requires Steady(s, {}) && s.connected
    ensures var t := Disconnect(s, now, reply, rc, script);
      && Rank(t) >= DISCONNECTING
      && NoNewSuccess(s.ledger, t.ledger)
      && (forall op :: Unsettled(s.ledger, op) ==>
            op in t.ledger.promises && t.ledger.promises[op].outcomes == [Rejected(ConnectionLost)])
  {
    var s1 := RejectAll(s.(disconnecting := true), ConnectionLost);
    var t := Disconnect(s, now, reply, rc, script);
    AllRejected(s);
    OnlyRejectsEvolves(s.ledger, s1.ledger, ConnectionLost);
    LeavingKeeps(s, now, reply, rc, script);
    Membership(s.ledger, {}, s.cleanupRef);
    Membership(s1.ledger, {}, s1.cleanupRef);
    forall op | Unsettled(s.ledger, op)
      ensures op in t.ledger.promises && t.ledger.promises[op].outcomes == [Rejected(ConnectionLost)]
    {
      SettledHasOutcome(s.ledger, s1.ledger, op, s1.cleanupRef);
    }
    hide Disconnect, RejectAll, LedgerInv;
    NoNewSuccessTrans(s.ledger, s1.ledger, t.ledger);
  }

  lemma SettledHasOutcome(m: Ledger, t: Ledger, op: OpId, held: bool)
    requires LedgerInv(t, {}, held) && AllSettled(t) && OnlyRejects(m, t, ConnectionLost)
    requires op in m.operations && op in m.promises && m.promises[op].outcomes == []
    ensures op in t.promises && t.promises[op].outcomes == [Rejected(ConnectionLost)]
  {
    assert op in t.operations ==> |t.promises[op].outcomes| == 1;
  }

  /** After Disconnect on a connected wrapper, whatever anyone does from then on: every promise
      that was open has been rejected and stays so, nothing but a disconnect ever succeeds any
      more, and the connection is never ready again. */
  lemma DisconnectBarrier(w: World, id: WrapId, now: nat, reply: Reply, rc: int, script: Script, later: seq<Action>)
    requires Reachable(w) && id in w.wraps && w.wraps[id].connected
    ensures var n := Run(Next(w, Enter(id, DoDisconnect(now, reply, rc, script))), later);
      && id in n.wraps
      && (forall op :: Unsettled(w.wraps[id].ledger, op) ==>
            op in n.wraps[id].ledger.promises
            && n.wraps[id].ledger.promises[op].outcomes == [Rejected(ConnectionLost)])
      && NoNewSuccess(w.wraps[id].ledger, n.wraps[id].ledger)
      && !Ready(n.wraps[id])
  {
    hide Steady, Disconnect, Run, Remembers, NoNewSuccess, Rank, Ready, Valid, Onward, Unsettled;
    ReachableSteady(w, id);
    var s := Focus(w, id);
    var a := Enter(id, DoDisconnect(now, reply, rc, script));
    var w1 := Next(w, a);
    var n := Run(w1, later);
    var t := Disconnect(s, now, reply, rc, script);
    assert Focus(w1, id) == t;
    DisconnectRejectsAll(s, now, reply, rc, script);
    NextValid(w, a);
    RunValid(w1, later);
    hide Next, Step;
    BarrierHolds(s, t, n.wraps[id], n.shared);
  }

  lemma BarrierHolds(s: Wrap, t: Wrap, n: Wrap, shared: Shared)
    requires Onward(s, t) && Onward(t, n.(shared := shared))
    requires Rank(t) >= DISCONNECTING && NoNewSuccess(s.ledger, t.ledger)
    requires forall op :: Unsettled(s.ledger, op) ==>
      op in t.ledger.promises && t.ledger.promises[op].outcomes == [Rejected(ConnectionLost)]
    ensures forall op :: Unsettled(s.ledger, op) ==>
      op in n.ledger.promises && n.ledger.promises[op].outcomes == [Rejected(ConnectionLost)]
    ensures NoNewSuccess(s.ledger, n.ledger)
    ensures !Ready(n)
  {
    hide Remembers, NoNewSuccess;
    RememberedOutward(s.ledger, t.ledger, n.ledger);
    NoNewSuccessTrans(s.ledger, t.ledger, n.ledger);
  }

  lemma RememberedOutward(m: Ledger, t: Ledger, n: Ledger)
    requires Remembers(t, n)
    requires forall op :: Unsettled(m, op) ==>
      op in t.promises && t.promises[op].outcomes == [Rejected(ConnectionLost)]
    ensures forall op :: Unsettled(m, op) ==>
      op in n.promises && n.promises[op].outcomes == [Rejected(ConnectionLost)]
  {
  }

  /** And so every request made from then on is refused with INVALID_STATE, and changes nothing. */
  lemma BarrierRefuses(w: World, id: WrapId, now: nat, reply: Reply, rc: int, script: Script,
                       later: seq<Action>, e: Event)
    requires Reachable(w) && id in w.wraps && w.wraps[id].connected
    requires Asks(e)
    ensures var n := Run(Next(w, Enter(id, DoDisconnect(now, reply, rc, script))), later);
      && id in n.wraps
      && OnlyRefuses(Focus(n, id), Step(Focus(n, id), e), Asked(e))
  {
    hide Run, Next, Step;
    DisconnectBarrier(w, id, now, reply, rc, script, later);
    NotReadyRefuses(Focus(Run(Next(w, Enter(id, DoDisconnect(now, reply, rc, script))), later), id), e);
  }

  /** The calls that a connection must be ready for. */
  predicate Asks(e: Event) {
    e.DoReaddir? || e.DoClosedir? || (e.DoRequest? && IsRequest(e.kind))
  }

  function Asked(e: Event): Kind
    requires Asks(e)
  {
    if e.DoReaddir? then ReaddirOp else if e.DoClosedir? then ClosedirOp else e.kind
  }

  /** From `s` to `t` one promise has been made, rejected at birth, and nothing else has changed. */
  predicate OnlyRefuses(s: Wrap, t: Wrap, kind: Kind) {
    t == s.(ledger := s.ledger.(
      promises := s.ledger.promises[s.ledger.nextId := Promise(kind, [Rejected(InvalidState)])],
      nextId := s.ledger.nextId + 1))
  }

  /** What a connection that is not ready answers to every request: INVALID_STATE, and nothing
      else about it changes. */
  lemma NotReadyRefuses(s: Wrap, e: Event)
    requires !Ready(s) && Asks(e)
    ensures OnlyRefuses(s, Step(s, e), Asked(e))
  {
  }

  // ---- Phases -----------------------------------------------------------------------------

  /** The `connected` getter agrees with IsConnectionReady. */
  lemma ConnectedMeansReady(w: World, id: WrapId)
    requires Reachable(w) && id in w.wraps
    ensures var s := w.wraps[id];
      && (s.connected ==> s.context.Some?)
      && (s.connected && !s.disconnecting <==> Ready(s))
      && (Ready(s) <==> Rank(s) == ESTABLISHED)
  {
    ReachableSteady(w, id);
  }

  /** Phases only move forward, and readiness once lost never returns. */
  lemma PhasesMoveForward(w: World, id: WrapId, later: seq<Action>)
    requires Reachable(w) && id in w.wraps
    ensures var n := Run(w, later);
      && id in n.wraps && Rank(w.wraps[id]) <= Rank(n.wraps[id])
      && (Rank(w.wraps[id]) > ESTABLISHED ==> !Ready(n.wraps[id]))
  {
    hide Steady, Run, Valid, Onward, Rank, Ready;
    ReachableSteady(w, id);
    RunValid(w, later);
    OnwardRank(w.wraps[id], w.shared, Run(w, later).wraps[id], Run(w, later).shared);
  }

  lemma OnwardRank(s: Wrap, before: Shared, t: Wrap, after: Shared)
    requires Onward(s.(shared := before), t.(shared := after))
    ensures Rank(s) <= Rank(t)
    ensures Rank(s) > ESTABLISHED ==> !Ready(t)
  {
    hide Remembers, NoNewSuccess;
  }

  // ---- The timer --------------------------------------------------------------------------

  /** The timer ticks while anything is pending on a live context, is set to fire at once while
      a cleanup is scheduled, and, unless scheduling ever failed, is off otherwise. */
  lemma TimerIsArmed(w: World, id: WrapId)
    requires Reachable(w) && id in w.wraps
    ensures var s := w.wraps[id];
      && (s.context.Some? && s.ledger.pending != {} ==> s.timer.mode == Tick)
      && (s.cleanupPending ==> s.timer.mode == OneShot && s.ledger.pending == {})
      && (s.timer.mode == OneShot && !s.scheduleFailed ==> s.cleanupPending)
      && (s.timer.mode != Off && !s.scheduleFailed ==> s.ledger.pending != {} || s.cleanupPending)
  {
    ReachableSteady(w, id);
  }

  /** A connection that has closed but still owns its context has its cleanup scheduled, the
      timer set and the reference held; so neither a later call, nor a finished operation, nor
      garbage collection gets in before the cleanup runs or a full teardown replaces it. */
  lemma CleanupSurvives(w: World, id: WrapId, later: seq<Action>)
    requires Reachable(w) && id in w.wraps && Rank(w.wraps[id]) == AWAITING_CLEANUP
    ensures var n := Run(w, later);
      && id in n.wraps
      && var t := n.wraps[id];
         t.context.None? || t.scheduleFailed
         || (t.cleanupPending && t.timer.mode == OneShot && t.cleanupRef && t.ledger.refs == 1)
  {
    hide Steady, Run, Rank;
    var actions :| w == Run(EMPTY_WORLD, actions);
    PhasesMoveForward(w, id, later);
    RunTwice(EMPTY_WORLD, actions, later);
    var n := Run(w, later);
    ReachableSteady(n, id);
    CleanupHeld(n.wraps[id], n.shared);
  }

  lemma CleanupHeld(s: Wrap, shared: Shared)
    requires Steady(s.(shared := shared), {}) && Rank(s) >= AWAITING_CLEANUP
    ensures s.context.None? || s.scheduleFailed
         || (s.cleanupPending && s.timer.mode == OneShot && s.cleanupRef && s.ledger.refs == 1)
  {
    hide Promised, Accounted, T.TableInv, P.LinkInv;
  }

  lemma {:induction false} RunTwice(w: World, first: seq<Action>, second: seq<Action>)
    ensures Run(Run(w, first), second) == Run(w, first + second)
    decreases first
  {
    if first == [] {
      assert first + second == second;
    } else {
      assert (first + second)[1..] == first[1..] + second;
      RunTwice(Next(w, first[0]), first[1..], second);
    }
  }

  // ---- Handles ----------------------------------------------------------------------------

  /** Below 2^32 opens, every native handle ever delivered is in the file table under exactly one
      id, or was handed to exactly one close call, or was dropped; never two of these. */
  lemma FileHandlesConserved(w: World, id: WrapId, h: T.Native)
    requires Reachable(w) && id in w.wraps && w.wraps[id].files.opens < 0x1_0000_0000
    ensures var t := w.wraps[id].files;
      && (h < t.delivered <==> T.InTable(t, h) || t.handed[h] > 0 || T.WasDropped(t, h))
      && t.handed[h] <= 1
      && (T.InTable(t, h) ==> t.handed[h] == 0 && !T.WasDropped(t, h))
      && (t.handed[h] > 0 ==> !T.WasDropped(t, h))
  {
    ReachableSteady(w, id);
    T.HandlesConserved(Focus(w, id).files, h);
  }

  lemma DirHandlesConserved(w: World, id: WrapId, h: T.Native)
    requires Reachable(w) && id in w.wraps && w.wraps[id].dirs.opens < 0x1_0000_0000
    ensures var t := w.wraps[id].dirs;
      && (h < t.delivered <==> T.InTable(t, h) || t.handed[h] > 0 || T.WasDropped(t, h))
      && t.handed[h] <= 1
      && (T.InTable(t, h) ==> t.handed[h] == 0 && !T.WasDropped(t, h))
      && (t.handed[h] > 0 ==> !T.WasDropped(t, h))
  {
    ReachableSteady(w, id);
    T.HandlesConserved(Focus(w, id).dirs, h);
  }

  /** Below 2^32 opens both tables are their history, and no id is ever issued twice. */
  lemma TablesAreTheirHistory(w: World, id: WrapId, handle: nat)
    requires Reachable(w) && id in w.wraps
    ensures var t := w.wraps[id].files;
      t.opens < 0x1_0000_0000 ==> T.TellsHistory(t, handle) && T.IssuedOnce(t.log)
    ensures var t := w.wraps[id].dirs;
      t.opens < 0x1_0000_0000 ==> T.TellsHistory(t, handle) && T.IssuedOnce(t.log)
  {
    ReachableSteady(w, id);
    var s := Focus(w, id);
    TablesSound(s, {});
    hide Steady, T.TellsHistory;
    if s.files.opens < 0x1_0000_0000 {
      T.TableTellsHistory(s.files, handle);
    }
    if s.dirs.opens < 0x1_0000_0000 {
      T.TableTellsHistory(s.dirs, handle);
    }
  }

  /** A successful open resolves with the id under which the table holds the new handle. */
  lemma OpenDelivers(s: Wrap, id: OpId, busy: set<OpId>, nested: Script)
    requires Called(s, id, busy) && s.ledger.operations[id].kind.OpenOp? && Unsettled(s.ledger, id)
    requires s.files.opens + 1 < 0x1_0000_0000
    ensures var t := OnOpenComplete(s, id, 0, nested);
      && t.files.delivered == s.files.delivered + 1
      && exists v :: v !in s.files.entries && v in t.files.entries
           && t.files.entries[v] == T.Entry(s.files.delivered, s.ledger.operations[id].path)
           && t.ledger.promises[id].outcomes == [Resolved(Number(v))]
  {
    hide T.TableInv, Steady, LedgerInv;
    OpenMeansConnected(s, id, busy);
    CalledFacts(s, id, busy);
    FreshHandle(s.files);
    hide Called;
    assert [] + [Resolved(Number(s.files.next))] == [Resolved(Number(s.files.next))];
    assert OnOpenComplete(s, id, 0, nested).files == T.Insert(s.files, s.ledger.operations[id].path);
  }

  lemma CalledFacts(s: Wrap, id: OpId, busy: set<OpId>)
    requires Called(s, id, busy)
    ensures T.TableInv(s.files)
    ensures id in s.ledger.promises && (Unsettled(s.ledger, id) ==> s.ledger.promises[id].outcomes == [])
  {
    TablesSound(s, busy + {id});
    Membership(s.ledger, {}, s.cleanupRef);
  }

  lemma FreshHandle(t: T.Table)
    requires T.TableInv(t) && t.opens + 1 < 0x1_0000_0000
    ensures t.next !in t.entries
  {
  }

  // ---- The registry and the poll ----------------------------------------------------------

  /** The registry is exactly the inverse of the connections' context fields; and a poll is only
      ever alive on a live context. */
  lemma RegistryIsInverse(w: World, c: CtxId, id: WrapId)
    requires Reachable(w)
    ensures c in w.shared.contexts && w.shared.contexts[c] == id
       <==> id in w.wraps && w.wraps[id].context == Some(c)
    ensures id in w.wraps && w.wraps[id].context == Some(c) ==> c in w.shared.live
    ensures id in w.wraps && w.wraps[id].link.poll.Some? ==> w.wraps[id].context.Some?
  {
    var actions :| w == Run(EMPTY_WORLD, actions);
    ReachableValid(actions);
    if id in w.wraps {
      assert Routed(Focus(w, id));
    }
  }

  /** libuv watches what libsmb2 last asked for, except that a teardown of the connection makes
      it watch nothing until libsmb2 asks again; every PollState is freed at most once. */
  lemma PollFollowsLibrary(w: World, id: WrapId, poll: nat)
    requires Reachable(w) && id in w.wraps
    ensures var l := w.wraps[id].link;
      && (l.poll.Some? ==>
            (l.poll.value.watched == P.Translate(l.requested) <==> !l.stale || P.Translate(l.requested) == P.NOTHING))
      && (l.poll.Some? && l.stale ==> l.poll.value.watched == P.NOTHING)
      && l.freed[poll] <= 1
      && (poll < l.nextPoll <==> l.freed[poll] == 1 || poll in l.closing || P.IsCurrent(l, poll))
  {
    ReachableSteady(w, id);
    var l := Focus(w, id).link;
    assert P.LinkInv(l);
    hide Steady, P.LinkInv;
    P.WatchesWhatWasAsked(l, poll);
  }

  /** OnPollClosed frees its PollState for the first time, and can never come for it again. */
  lemma PollStateFreedOnce(w: World, id: WrapId, poll: nat)
    requires Reachable(w) && id in w.wraps && poll in w.wraps[id].link.closing
    ensures var before, after := w.wraps[id].link, Step(Focus(w, id), PollCloses(poll)).link;
      && before.freed[poll] == 0 && after.freed[poll] == 1
      && poll < after.nextPoll && poll !in after.closing && !P.IsCurrent(after, poll)
      && after.poll == before.poll && (forall x :: x != poll ==> after.freed[x] == before.freed[x])
  {
    hide Steady, P.Free, P.LinkInv, P.IsCurrent, Reachable;
    ReachableSteady(w, id);
    SteadyLink(Focus(w, id));
    P.FreedOnce(w.wraps[id].link, poll);
  }

  lemma SteadyLink(s: Wrap)
    requires Steady(s, {})
    ensures P.LinkInv(s.link)
  {
  }

  /** The exception is real: once a disconnect has completed, a descriptor that libsmb2 adds on
      the context, which lives on until its cleanup, is watched for nothing at all, whatever
      libsmb2 had asked for. */
  lemma PollForgetsAfterDisconnect(s: Wrap, id: OpId, busy: set<OpId>, status: int, reply: Reply, ctx: CtxId, fd: int)
    requires Called(s, id, busy) && s.ledger.operations[id].kind.DisconnectOp? && s.context == Some(ctx)
    ensures var t := OnFdChanged(OnDisconnectComplete(s, id, status, reply), ctx, fd, true);
      && t.link.poll.Some? && t.link.poll.value.fd == fd && t.link.poll.value.watched == P.NOTHING
      && t.link.requested == s.link.requested
  {
    AliveIsOld(s, busy + {id});
    hide Called, Finish, QueueForCleanup, ScheduleCleanup, RejectOp, ResolveOp;
    var t := OnDisconnectComplete(s, id, status, reply);
    DisconnectLink(s, id, status, reply);
    hide OnDisconnectComplete;
    assert P.Translate(0) == P.NOTHING;
  }

  lemma DisconnectLink(s: Wrap, id: OpId, status: int, reply: Reply)
    requires id in s.ledger.operations
    ensures var t := OnDisconnectComplete(s, id, status, reply);
      t.link == P.Reset(P.Stop(s.link)) && t.shared == s.shared && t.self == s.self
  {
    hide Reject, Settle, Finish, QueueForCleanup, ScheduleCleanup, T.Clear, P.Reset, P.Stop;
    if s.ledger.operations[id].settled {
      EndingLink(s, s, id, reply);
    } else if status < 0 {
      EndingLink(s, RejectOp(s, id, Classified(status)), id, reply);
    } else {
      EndingLink(s, ResolveOp(s, id, Undefined), id, reply);
    }
  }

  lemma EndingLink(s: Wrap, s1: Wrap, id: OpId, reply: Reply)
    requires s1.link == s.link && s1.shared == s.shared && s1.self == s.self
    ensures var t := ScheduleCleanup(Finish(QueueForCleanup(Disconnected(s1), {id}), id), reply);
      t.link == P.Reset(P.Stop(s.link)) && t.shared == s.shared && t.self == s.self
  {
    hide Finish, QueueForCleanup, ScheduleCleanup, T.Clear, P.Reset, P.Stop;
    var s2 := QueueForCleanup(Disconnected(s1), {id});
    EndsKeepLink(Disconnected(s1), id, {id}, reply);
    EndsKeepLink(s2, id, {}, reply);
    EndsKeepLink(Finish(s2, id), id, {}, reply);
  }

  lemma EndsKeepLink(s: Wrap, id: OpId, keep: set<OpId>, reply: Reply)
    ensures var t := Finish(s, id); t.link == s.link && t.shared == s.shared && t.self == s.self
    ensures var t := QueueForCleanup(s, keep); t.link == s.link && t.shared == s.shared && t.self == s.self
    ensures var t := ScheduleCleanup(s, reply); t.link == s.link && t.shared == s.shared && t.self == s.self
  {
    hide Defer, Retire, AddRefs;
  }

  /** With nothing asked for but readability, for instance, the poll is deaf. */
  lemma DeafPoll(l: P.Link, fd: int)
    requires P.LinkInv(l) && l.requested == 1
    ensures var t := P.Start(P.Reset(P.Stop(l)), fd);
      t.poll.Some? && t.poll.value.watched != P.Translate(t.requested)
  {
    P.ResetKeeps(l);
  }

  // ---- Exact conditions -------------------------------------------------------------------

  /** A call ends by reading the promise out of its operation.  That operation is still allocated
      at this point exactly when the timer started and libsmb2 accepted the submission. */
  lemma RequestReturnsLiveOperation(s: Wrap, kind: Kind, path: Text, handle: nat, tooLong: bool,
                                    now: nat, reply: Reply, rc: int, script: Script)
    requires Steady(s, {}) && IsRequest(kind) && Acceptable(s, kind, handle, tooLong)
    ensures s.ledger.nextId in Request(s, kind, path, handle, tooLong, now, reply, rc, script).ledger.operations
       <==> Arms(s.timer, reply) && rc >= 0
  {
    hide Steady, HandleFatal, AfterRequest, Enlisted, Breakable, Wrecked, Touch, Concluded;
    var armed := Arms(s.timer, reply);
    AfterRequestKeeps(s, kind, handle, armed);
    AcceptableConnected(s, kind, handle, tooLong);
    TableSteady(s, AfterRequest(s, kind, handle, armed));
    var s1 := s.(files := AfterRequest(s, kind, handle, armed));
    var where := if NeedsFile(kind) then s.files.entries[handle].path else path;
    EnlistedEvolves(s1, kind, now, where, reply);
    ConcludedLives(s1, Enlisted(s1, kind, now, where, reply), kind, now, where, reply, rc, script);
  }

  lemma AcceptableConnected(s: Wrap, kind: Kind, handle: nat, tooLong: bool)
    requires Acceptable(s, kind, handle, tooLong)
    ensures s.connected && (NeedsFile(kind) ==> handle in s.files.entries)
  {
  }

  lemma ConcludedLives(s: Wrap, t: Wrap, kind: Kind, now: nat, path: Text, reply: Reply, rc: int, script: Script)
    requires t == Enlisted(s, kind, now, path, reply) && Breakable(t)
    ensures s.ledger.nextId in Concluded(t, s.ledger.nextId, Arms(s.timer, reply), rc, script).ledger.operations
       <==> Arms(s.timer, reply) && rc >= 0
  {
    hide HandleFatal, Breakable;
    if !Arms(s.timer, reply) {
      FatalEffect(t, script);
    }
  }

  /** Connect reads the promise out of its operation likewise, except that the return without a
      context reads it before it deletes the operation. */
  lemma ConnectReturnsLiveOperation(s: Wrap, ctx: CtxId, path: Text, now: nat, reply: Reply, rc: int, script: Script)
    requires Steady(s, {}) && s.ledger.nextId == 0 && ctx !in s.shared.live
    ensures 0 in Connect(s, Some(ctx), path, now, reply, rc, script).ledger.operations
       <==> Arms(s.timer, reply) && rc >= 0
  {
    hide Steady, Enlisted, HandleFatal, CleanupContext, Finish, RejectOp, Touch, Called, Breakable, LedgerInv, Sound,
      Routed, AllSettled, Evolves, Spares, Remembers, NoNewSuccess, Neighbourly;
    var s1 := Dialling(s, ctx, path, now, reply);
    FreshParts(s);
    DiallingFields(s, ctx, path, now, reply);
    DiallingSound(s, ctx, path, now, reply);
    if !Arms(s.timer, reply) {
      FatalFrees(s1, script);
    } else {
      DiallingCalled(s, ctx, path, now, reply);
      DialledKeeps(s1, 0, rc, script);
      if rc < 0 {
        RejectedConnect(s1, 0, Classified(rc), {});
        RejectedRank(s1, 0, Classified(rc), {});
        DialFrees(RejectOp(s1, 0, Classified(rc)), script);
      }
    }
  }

  lemma RejectedRank(s: Wrap, id: OpId, code: Code, busy: set<OpId>)
    requires Called(s, id, busy) && s.ledger.operations[id].kind.ConnectOp? && Unsettled(s.ledger, id)
    ensures Rank(RejectOp(s, id, code)) == CONNECTING && RejectOp(s, id, code).context.Some?
  {
    OnlyConnect(s, id, busy);
    hide LedgerInv, Sound, Routed;
  }

  lemma FatalFrees(s: Wrap, script: Script)
    requires Breakable(s)
    ensures HandleFatal(s, script).ledger.operations == map[]
  {
    FatalEffect(s, script);
  }

  lemma DialFrees(s: Wrap, script: Script)
    requires Sound(s) && Routed(s) && AllSettled(s.ledger) && s.ledger.nextId > 0 && s.ledger.deferred == multiset{}
    requires 0 in s.ledger.operations && 0 !in s.ledger.outstanding && s.context.Some? && Rank(s) == CONNECTING
    ensures 0 !in CleanupContext(Finish(s, 0), script).ledger.operations
  {
    FinishSound(s, 0);
    FinishedConnect(s, 0);
    hide Sound, Routed, AllSettled, CleanupContext, Retire;
    RetireFacts(s.ledger, 0);
    CleanupEffect(Finish(s, 0), script);
    hide Evolves;
  }

  lemma DisconnectReturnsLiveOperation(s: Wrap, now: nat, reply: Reply, rc: int, script: Script)
    requires Steady(s, {}) && s.connected
    ensures s.ledger.nextId in Disconnect(s, now, reply, rc, script).ledger.operations
       <==> Arms(s.timer, reply) && rc >= 0
  {
    AllRejected(s);
    var s1 := RejectAll(s.(disconnecting := true), ConnectionLost);
    EnlistedEvolves(s1, DisconnectOp, now, [], reply);
    EnlistedLists(s1, now, reply);
    assert s.context.Some?;
    hide Steady, Breakable, AllSettled, Evolves, OnlyRejects, RejectAll, Disconnect, Finish, HandleFatal, Touch,
      Enlisted;
    var s2 := Enlisted(s1, DisconnectOp, now, [], reply);
    DisconnectCases(s, now, reply, rc, script);
    if !Arms(s.timer, reply) {
      FatalFrees(s2, script);
    } else if rc < 0 {
      FinishFrees(CleanupContext(RejectOp(Touch(s2), s.ledger.nextId, Classified(rc)), script), s.ledger.nextId);
    }
  }

  lemma DisconnectCases(s: Wrap, now: nat, reply: Reply, rc: int, script: Script)
    requires s.connected && s.context.Some?
    ensures var id := s.ledger.nextId;
      var s1 := RejectAll(s.(disconnecting := true), ConnectionLost);
      var s2 := Enlisted(s1, DisconnectOp, now, [], reply);
      Disconnect(s, now, reply, rc, script) ==
        if !Arms(s.timer, reply) then HandleFatal(s2, script)
        else if rc < 0 then Finish(CleanupContext(RejectOp(Touch(s2), id, Classified(rc)), script), id)
        else Owe(Touch(s2), id)
  {
    hide HandleFatal, CleanupContext, Finish, RejectOp, Touch, Owe, Enlisted, RejectAll;
  }

  lemma FinishFrees(s: Wrap, id: OpId)
    ensures id !in Finish(s, id).ledger.operations
  {
    hide IdleTimer;
  }

  lemma EnlistedLists(s: Wrap, now: nat, reply: Reply)
    ensures s.ledger.nextId in Touch(Enlisted(s, DisconnectOp, now, [], reply)).ledger.operations
  {
  }

  /** While a context dies, nothing libsmb2 fires, with whatever status, settles a promise, delivers a
      handle, starts a poll or connects the wrapper. */
  lemma TeardownIsQuiet(s: Wrap, script: Script)
    requires Sound(s) && Routed(s) && AllSettled(s.ledger) && s.context.Some?
    ensures var dying := Dismantle(s);
      var t := RunScript(dying, s.context.value, script, true);
      && t.ledger.promises == s.ledger.promises
      && t.files.delivered == s.files.delivered && t.dirs.delivered == s.dirs.delivered
      && t.link.poll == None && t.files.entries == map[] && t.dirs.entries == map[]
      && (t.connected ==> s.connected)
      && t.shared == dying.shared
  {
    DismantleDying(s);
    ScriptDying(Dismantle(s), s.context.value, script);
    hide RunScript;
  }
}
