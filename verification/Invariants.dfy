/**
 What every transition of a connection keeps.

 `Steady` holds whenever the code is not inside a call that destroys the context, `Dying`
 whenever libsmb2 is destroying it.
 */
module Invariants {
  import opened Options
  import opened Texts
  import opened Operations
  import opened Lifecycle
  import T = HandleTable
  import P = PollLink
  import Paths

  // ---- The invariants ---------------------------------------------------------------------

  /** What holds at every moment libsmb2 has control, teardown included. */
  ghost predicate Sound(s: Wrap) {
    && s.faults == {}
    && LedgerInv(s.ledger, {}, s.cleanupRef)
    && T.TableInv(s.files)
    && T.TableInv(s.dirs)
    && P.LinkInv(s.link)
    && (s.timer.mode != Off ==> s.timer.initialized)
    && (s.cleanupPending ==> s.ledger.pending == {} && !s.connected && s.timer.mode == OneShot)
    && (s.timer.mode == OneShot && !s.scheduleFailed ==> s.cleanupPending)
  }

  /** The registry routes to this connection exactly the context it owns. */
  ghost predicate Routed(s: Wrap) {
    && (forall c :: c in s.shared.contexts ==>
          c in s.shared.live && (s.shared.contexts[c] == s.self <==> s.context == Some(c)))
    && (s.context.Some? ==> RoutesHere(s, s.context.value))
  }

  /** The connect operation is the only one and its promise is open. */
  ghost predicate Connecting(s: Wrap) {
    && (forall id :: id in s.ledger.operations ==> s.ledger.operations[id].kind.ConnectOp? && Unsettled(s.ledger, id))
    && |s.ledger.pending| == 1
  }

  ghost predicate CleanupPromised(s: Wrap) {
    s.cleanupPending && s.cleanupRef
  }

  /** `busy` holds the operations whose callbacks are running right now. */
  ghost predicate Steady(s: Wrap, busy: set<OpId>) {
    && Sound(s)
    && Routed(s)
    && (s.context.Some? ==> forall id :: id in s.ledger.operations ==> id in s.ledger.outstanding || id in busy)
    && (s.context.None? ==> s.ledger.outstanding == {} && s.link.poll == None && !s.connected && AllSettled(s.ledger))
    && (s.connected ==> s.ledger.deferred == multiset{})
    && (s.connected ==> forall id :: Unsettled(s.ledger, id) ==> !s.ledger.operations[id].kind.ConnectOp?)
    && (s.disconnecting ==> s.connected)
    && (s.disconnecting ==> forall id :: Unsettled(s.ledger, id) ==> s.ledger.operations[id].kind.DisconnectOp?)
    && (s.context.Some? && !s.connected ==> Connecting(s) || s.ledger.pending == {})
    && (!s.connected ==> s.files.entries == map[] && s.dirs.entries == map[])
    && (s.context.Some? && s.ledger.pending != {} ==> s.timer.mode == Tick)
    && (s.timer.mode != Off && !s.scheduleFailed ==> s.ledger.pending != {} || s.cleanupPending)
    && (s.ledger.deferred != multiset{} && !s.scheduleFailed ==> CleanupPromised(s))
    && (s.context.Some? && !s.connected && s.ledger.pending == {} && !s.scheduleFailed ==> CleanupPromised(s))
    && (s.ledger.nextId == 0 ==> s.context.None? && !s.cleanupPending)
    && (Rank(s) <= DISCONNECTING ==> !s.cleanupRef)
    && (s.context.Some? ==> s.timer.initialized)
  }

  /** libsmb2 is destroying context `ctx`: it routes to nobody and all promises are settled. */
  ghost predicate Dying(s: Wrap, ctx: CtxId) {
    && Sound(s)
    && s.context == Some(ctx)
    && ctx in s.shared.live
    && ctx !in s.shared.contexts
    && AllSettled(s.ledger)
    && s.link.poll == None
    && s.files.entries == map[] && s.dirs.entries == map[]
    && (s.timer.mode != Off && !s.scheduleFailed ==> s.cleanupPending)
  }

  /** Entries of the tables do not change, and ids that have gone do not come back. */
  ghost predicate Lasting(s: Wrap, t: Wrap) {
    T.Continues(s.files, t.files) && T.Continues(s.dirs, t.dirs)
  }

  lemma LastingTrans(a: Wrap, b: Wrap, c: Wrap)
    requires Lasting(a, b) && Lasting(b, c)
    ensures Lasting(a, c)
  {
    T.ContinuesTrans(a.files, b.files, c.files);
    T.ContinuesTrans(a.dirs, b.dirs, c.dirs);
  }

  /** All that callbacks fired during a teardown can do: finish operations and schedule another
      cleanup.  No promise is settled, no handle is delivered, nothing gets connected. */
  ghost predicate OnlyFinishes(s: Wrap, t: Wrap) {
    && t.self == s.self && t.shared == s.shared && t.context == s.context
    && Shrinks(s.ledger, t.ledger)
    && t.files.delivered == s.files.delivered && t.dirs.delivered == s.dirs.delivered
    && Lasting(s, t)
    && (t.connected ==> s.connected)
    && (s.timer.initialized ==> t.timer.initialized)
    && (s.scheduleFailed ==> t.scheduleFailed)
    && (CleanupPromised(s) && !t.scheduleFailed ==> CleanupPromised(t))
    && (t.ledger.deferred != multiset{} && !t.scheduleFailed ==> s.ledger.deferred != multiset{} || CleanupPromised(t))
  }

  // ---- Teardown ---------------------------------------------------------------------------

  lemma FinishSound(s: Wrap, id: OpId)
    requires Sound(s)
    requires id in s.ledger.operations && s.ledger.operations[id].settled && id !in s.ledger.outstanding
    ensures Sound(Finish(s, id))
  {
    hide LedgerInv, T.TableInv, P.LinkInv, Retire;
    RetireKeeps(s.ledger, id, s.cleanupRef);
    RetireFacts(s.ledger, id);
  }

  lemma QueueSound(s: Wrap, keep: set<OpId>)
    requires Sound(s)
    ensures Sound(QueueForCleanup(s, keep))
  {
    hide LedgerInv, T.TableInv, P.LinkInv, Defer;
    DeferFacts(s.ledger, keep, s.cleanupRef);
  }

  lemma ScheduleSound(s: Wrap, reply: Reply)
    requires Sound(s) && s.ledger.pending == {} && !s.connected
    ensures Sound(ScheduleCleanup(s, reply))
  {
    hide LedgerInv, T.TableInv, P.LinkInv, AddRefs;
    AddRefsKeeps(s.ledger, s.cleanupRef, Arms(s.timer, reply));
    AddRefsFacts(s.ledger, (if Arms(s.timer, reply) then 1 else 0) - (if s.cleanupRef then 1 else 0));
  }

  lemma FinishDying(s: Wrap, ctx: CtxId, id: OpId)
    requires Dying(s, ctx)
    requires id in s.ledger.operations && id !in s.ledger.outstanding
    ensures Dying(Finish(s, id), ctx)
  {
    hide LedgerInv, T.TableInv, P.LinkInv, Retire;
    FinishSound(s, id);
    RetireFacts(s.ledger, id);
  }

  lemma FinishOnlyFinishes(s: Wrap, ctx: CtxId, id: OpId)
    requires Dying(s, ctx)
    requires id in s.ledger.outstanding
    ensures OnlyFinishes(s, Finish(s.(ledger := Fired(s.ledger, id)), id))
  {
    hide LedgerInv, T.TableInv, P.LinkInv, Retire, Shrinks;
    RetireShrinks(s.ledger, id, s.cleanupRef);
    RetireFacts(Fired(s.ledger, id), id);
  }

  lemma OnlyFinishesTrans(a: Wrap, b: Wrap, c: Wrap)
    requires a.ledger.outstanding <= a.ledger.operations.Keys
    requires OnlyFinishes(a, b) && OnlyFinishes(b, c)
    ensures OnlyFinishes(a, c)
  {
    ShrinksTrans(a.ledger, b.ledger, c.ledger);
    LastingTrans(a, b, c);
    hide Shrinks, Lasting;
  }

  /** What OnDisconnectComplete does first: drop the poll, the handles and the connection. */
  function Disconnected(s: Wrap): Wrap {
    s.(link := P.Reset(P.Stop(s.link)), files := T.Clear(s.files), dirs := T.Clear(s.dirs),
       connected := false, disconnecting := false)
  }

  lemma DisconnectedSound(s: Wrap)
    requires Sound(s)
    ensures Sound(Disconnected(s))
  {
    hide LedgerInv, T.TableInv, T.Clear, P.LinkInv, P.Reset, P.Stop;
    T.ClearKeeps(s.files);
    T.ClearKeeps(s.dirs);
    P.ResetKeeps(s.link);
  }

  /** A disconnect callback fired by the teardown moves everything to the deferred list and
      schedules a cleanup. */
  lemma DisconnectDying(s: Wrap, ctx: CtxId, id: OpId, status: int, reply: Reply)
    requires Dying(s, ctx)
    requires id in s.ledger.operations && id !in s.ledger.outstanding
    ensures Dying(OnDisconnectComplete(s, id, status, reply), ctx)
  {
    hide LedgerInv, T.TableInv, P.LinkInv, Defer, Retire;
    var s1 := Disconnected(s);
    DisconnectedSound(s);
    P.ResetKeeps(s.link);
    QueueSound(s1, {id});
    DeferFacts(s1.ledger, {id}, s.cleanupRef);
    var s2 := QueueForCleanup(s1, {id});
    RetireFacts(s2.ledger, id);
    FinishDying(s2, ctx, id);
    ScheduleSound(Finish(s2, id), reply);
  }

  lemma DisconnectOnlyFinishes(s: Wrap, ctx: CtxId, id: OpId, status: int, reply: Reply)
    requires Dying(s, ctx)
    requires id in s.ledger.outstanding && id in s.ledger.operations
    ensures OnlyFinishes(s, OnDisconnectComplete(s.(ledger := Fired(s.ledger, id)), id, status, reply))
  {
    hide LedgerInv, T.TableInv, P.LinkInv, Defer, Retire;
    DeferRetireShrinks(s.ledger, id, s.cleanupRef);
    var m := Fired(s.ledger, id);
    var done := Retire(Defer(m, m.pending - {id}), id);
    var t := OnDisconnectComplete(s.(ledger := m), id, status, reply);
    assert t.ledger == done.(refs := t.ledger.refs);
    assert Shrinks(s.ledger, t.ledger);
    hide Shrinks;
  }

  /** Any other callback on a settled operation just finishes it, unless it delivers a handle. */
  lemma SettledCompletion(s: Wrap, id: OpId, status: int, reply: Reply, nested: Script)
    requires id in s.ledger.operations && s.ledger.operations[id].settled
    requires !s.ledger.operations[id].kind.DisconnectOp?
    requires Delivers(s.ledger.operations[id].kind) ==> status != 0
    ensures OnComplete(s, id, status, reply, nested) == Finish(s, id)
  {
    hide Finish, OnConnectComplete, OnDisconnectComplete, OnStatComplete, OnOpenComplete, OnOpendirComplete,
      OnRequestComplete;
    SettledPlain(s, id, status, nested);
    SettledOpen(s, id, status, nested);
  }

  lemma SettledPlain(s: Wrap, id: OpId, status: int, nested: Script)
    requires id in s.ledger.operations && s.ledger.operations[id].settled
    ensures OnConnectComplete(s, id, status, nested) == Finish(s, id)
    ensures OnStatComplete(s, id, status) == Finish(s, id) && OnRequestComplete(s, id, status) == Finish(s, id)
  {
    hide Finish, RejectOp, ResolveOp, CleanupContext;
  }

  lemma SettledOpen(s: Wrap, id: OpId, status: int, nested: Script)
    requires id in s.ledger.operations && s.ledger.operations[id].settled
    ensures status != 0 ==>
      OnOpenComplete(s, id, status, nested) == Finish(s, id) && OnOpendirComplete(s, id, status) == Finish(s, id)
  {
    RejectSettled(s.ledger, id, ConnectionLost);
    hide Finish, Reject, ResolveOp, RunScript, T.Insert, T.Bounce, T.Abandon, Touch;
    assert RejectOp(s, id, ConnectionLost) == s;
  }

  lemma ActDying(s: Wrap, ctx: CtxId, act: Act)
    requires Dying(s, ctx)
    ensures Dying(RunAct(s, ctx, act, true), ctx)
    ensures OnlyFinishes(s, RunAct(s, ctx, act, true))
  {
    hide LedgerInv, T.TableInv, P.LinkInv, Finish, OnDisconnectComplete, Shrinks;
    Membership(s.ledger, {}, s.cleanupRef);
    ShrinksRefl(s.ledger);
    if act.Complete? && act.op in s.ledger.outstanding {
      FiredKeeps(s.ledger, act.op, s.cleanupRef);
      var s1 := s.(ledger := Fired(s.ledger, act.op));
      assert Dying(s1, ctx);
      var status := DyingStatus(s.ledger.operations, act.op, act.status);
      if s.ledger.operations[act.op].kind.DisconnectOp? {
        DisconnectDying(s1, ctx, act.op, status, act.reply);
        DisconnectOnlyFinishes(s, ctx, act.op, status, act.reply);
      } else {
        SettledCompletion(s1, act.op, status, act.reply, act.nested);
        FinishDying(s1, ctx, act.op);
        FinishOnlyFinishes(s, ctx, act.op);
      }
    }
  }

  lemma {:induction false} ScriptDying(s: Wrap, ctx: CtxId, script: Script)
    requires Dying(s, ctx)
    ensures Dying(RunScript(s, ctx, script, true), ctx)
    ensures OnlyFinishes(s, RunScript(s, ctx, script, true))
    decreases script
  {
    Membership(s.ledger, {}, s.cleanupRef);
    hide LedgerInv, T.TableInv, P.LinkInv, RunAct;
    if script != [] {
      var s1 := RunAct(s, ctx, script[0], true);
      ActDying(s, ctx, script[0]);
      ScriptDying(s1, ctx, script[1..]);
      OnlyFinishesTrans(s, s1, RunScript(s1, ctx, script[1..], true));
    }
  }

  /** What a teardown of `s` may leave behind, whatever fired while the context died. */
  ghost predicate TornDown(s: Wrap, t: Wrap) {
    && Sound(t)
    && t.self == s.self
    && t.shared == WithoutContext(s)
    && t.context == None && !t.connected && !t.disconnecting && t.link.poll == None
    && t.files.entries == map[] && t.dirs.entries == map[]
    && t.files.delivered == s.files.delivered && t.dirs.delivered == s.dirs.delivered
    && Lasting(s, t)
    && AllSettled(t.ledger)
    && t.ledger.promises == s.ledger.promises && t.ledger.nextId == s.ledger.nextId
    && t.ledger.created == s.ledger.created
    && t.ledger.outstanding == {}
    && t.ledger.pending <= s.ledger.pending
    && (forall id :: id in t.ledger.operations ==>
          id in s.ledger.operations && t.ledger.operations[id] == s.ledger.operations[id])
    && (forall id :: id in s.ledger.operations && id !in s.ledger.outstanding ==> id in t.ledger.operations)
    && (t.timer.mode != Off && !t.scheduleFailed ==> t.cleanupPending)
    && (s.timer.initialized ==> t.timer.initialized)
    && (s.context.None? ==> t.timer.initialized == s.timer.initialized)
    && (s.scheduleFailed ==> t.scheduleFailed)
    && (s.context.None? ==> !t.cleanupPending && t.cleanupRef == s.cleanupRef)
    && (t.ledger.deferred != multiset{} && !t.scheduleFailed ==> s.ledger.deferred != multiset{} || CleanupPromised(t))
  }

  function WithoutContext(s: Wrap): Shared {
    match s.context
    case None => s.shared
    case Some(ctx) => Shared(s.shared.contexts - {ctx}, s.shared.live - {ctx})
  }

  lemma DismantleDying(s: Wrap)
    requires Sound(s) && Routed(s) && AllSettled(s.ledger)
    ensures Sound(Dismantle(s))
    ensures s.context.Some? ==> Dying(Dismantle(s), s.context.value)
    ensures Dismantle(s).link.poll == None
  {
    hide LedgerInv, T.TableInv, P.LinkInv;
    T.ClearKeeps(s.files);
    T.ClearKeeps(s.dirs);
    P.StopKeeps(s.link);
  }

  /** A library that owes nothing has nothing to fire, and a forgotten context no route. */
  lemma {:induction false} SilentScript(s: Wrap, ctx: CtxId, script: Script, dying: bool)
    requires s.ledger.outstanding == {} && ctx !in s.shared.contexts
    ensures RunScript(s, ctx, script, dying) == s
  {
    if script != [] {
      SilentScript(s, ctx, script[1..], dying);
    }
  }

  lemma MarkedClean(s: Wrap, ctx: CtxId)
    requires Dying(s, ctx)
    ensures Marked(s, ctx) == s
  {
    Membership(s.ledger, {}, s.cleanupRef);
    assert CleanDestroy(s);
    assert s.(faults := s.faults + {} + {}) == s;
  }

  lemma OnlyFinishesQuiet(s: Wrap, t: Wrap)
    requires OnlyFinishes(s, t) && s.link.poll == None && t.link.poll == None
    ensures Quiet(s, t) && t.(faults := t.faults + {}) == t
  {
  }

  lemma DestroyEffect(s: Wrap, ctx: CtxId, script: Script)
    requires Dying(s, ctx)
    ensures var t := Destroy(s, ctx, script);
      && Sound(t) && AllSettled(t.ledger) && t.link.poll == None
      && OnlyFinishes(s, RunScript(s, ctx, script, true))
      && t == RunScript(s, ctx, script, true).(ledger := t.ledger, shared := t.shared)
      && t.ledger == Silence(RunScript(s, ctx, script, true).ledger)
      && t.shared == s.shared.(live := s.shared.live - {ctx})
      && t.files.entries == map[] && t.dirs.entries == map[]
      && (t.timer.mode != Off && !t.scheduleFailed ==> t.cleanupPending)
  {
    Membership(s.ledger, {}, s.cleanupRef);
    hide LedgerInv, T.TableInv, P.LinkInv, Shrinks;
    MarkedClean(s, ctx);
    ScriptDying(s, ctx, script);
    OnlyFinishesQuiet(s, RunScript(s, ctx, script, true));
    hide Quiet, Marked;
    SilenceKeeps(RunScript(s, ctx, script, true).ledger, RunScript(s, ctx, script, true).cleanupRef);
  }

  lemma CleanupEffect(s: Wrap, script: Script)
    requires Sound(s) && Routed(s) && AllSettled(s.ledger)
    requires s.context.None? ==> s.ledger.outstanding == {}
    ensures TornDown(s, CleanupContext(s, script))
  {
    hide LedgerInv, T.TableInv, P.LinkInv;
    DismantleDying(s);
    var s1 := Dismantle(s);
    if s.context.Some? {
      DestroyEffect(s1, s.context.value, script);
      P.ResetKeeps(Destroy(s1, s.context.value, script).link);
    } else {
      P.ResetKeeps(s1.link);
    }
    hide RunScript, T.Clear;
  }

  // ---- Fatal errors -----------------------------------------------------------------------

  /** What HandleFatal asks for: nothing about phases or the timer. */
  ghost predicate Breakable(s: Wrap) {
    && Sound(s)
    && Routed(s)
    && (s.context.None? ==> s.ledger.outstanding == {})
    && s.ledger.nextId > 0
  }

  /** Everything is settled, freed and closed. */
  ghost predicate Wrecked(s: Wrap, t: Wrap) {
    && Steady(t, {})
    && t.self == s.self
    && t.context == None && t.link.poll == None
    && t.ledger.operations == map[] && t.ledger.pending == {} && t.ledger.deferred == multiset{}
    && t.files.entries == map[] && t.dirs.entries == map[]
    && OnlyRejects(s.ledger, t.ledger, ConnectionLost)
    && Lasting(s, t)
    && t.shared == WithoutContext(s)
  }

  /** HandleFatal up to the teardown: every operation is rejected and deferred. */
  function Condemned(s: Wrap): Wrap {
    QueueForCleanup(RejectAll(s, ConnectionLost), {})
  }

  lemma CondemnedEffect(s: Wrap)
    requires Breakable(s)
    ensures var t := Condemned(s);
      && Sound(t) && AllSettled(t.ledger) && t.ledger.pending == {}
      && OnlyRejects(s.ledger, t.ledger, ConnectionLost)
      && t.ledger.outstanding == s.ledger.outstanding
      && t == s.(ledger := t.ledger, timer := t.timer)
  {
    hide LedgerInv, T.TableInv, P.LinkInv, OnlyRejects, RejectEach, Defer;
    var s1 := RejectAll(s, ConnectionLost);
    RejectAllFacts(s.ledger, ConnectionLost, {}, s.cleanupRef);
    assert Sound(s1) && AllSettled(s1.ledger);
    QueueSound(s1, {});
    DeferFacts(s1.ledger, {}, s1.cleanupRef);
    OnlyRejectsSame(s.ledger, s1.ledger, Condemned(s).ledger, ConnectionLost);
  }

  /** A teardown followed by a drain ends in a steady state with no operation but those still
      pending. */
  lemma DrainedSteady(s: Wrap, t: Wrap)
    requires TornDown(s, t) && Routed(s) && (s.context.Some? ==> s.ledger.nextId > 0)
    requires s.ledger.nextId == 0 ==> !s.cleanupRef
    ensures Steady(DrainDeferred(t), {})
    ensures DrainDeferred(t).ledger.operations.Keys == t.ledger.pending
    ensures DrainDeferred(t).ledger.deferred == multiset{}
  {
    RoutedWithout(s, DrainDeferred(t));
    DrainSound(t);
    hide Sound, Routed, Drain, Connecting, WithoutContext;
  }

  lemma RoutedWithout(s: Wrap, t: Wrap)
    requires Routed(s) && t.self == s.self && t.shared == WithoutContext(s) && t.context == None
    ensures Routed(t)
  {
  }

  lemma DrainSound(s: Wrap)
    requires Sound(s) && s.ledger.outstanding == {}
    ensures var t := DrainDeferred(s);
      && Sound(t)
      && t.ledger.operations.Keys == s.ledger.pending && t.ledger.pending == s.ledger.pending
      && t.ledger.deferred == multiset{} && t.ledger.outstanding == {} && t.ledger.nextId == s.ledger.nextId
      && (AllSettled(s.ledger) ==> AllSettled(t.ledger))
  {
    hide LedgerInv, T.TableInv, P.LinkInv, Drain, AllSettled;
    DrainFacts(s.ledger, s.cleanupRef);
  }

  lemma FatalEffect(s: Wrap, script: Script)
    requires Breakable(s)
    ensures Wrecked(s, HandleFatal(s, script))
  {
    hide LedgerInv, T.TableInv, P.LinkInv, OnlyRejects, Drain, Condemned, CleanupContext, Steady;
    CondemnedEffect(s);
    var s1 := Condemned(s);
    NextIdKept(s.ledger, s1.ledger);
    CleanupEffect(s1, script);
    var s2 := CleanupContext(s1, script);
    DrainedSteady(s1, s2);
    var t := DrainDeferred(s2);
    DrainFacts(s2.ledger, s2.cleanupRef);
    OnlyRejectsSame(s.ledger, s1.ledger, t.ledger, ConnectionLost);
    FatalSplit(s, script);
  }

  lemma FatalSplit(s: Wrap, script: Script)
    ensures HandleFatal(s, script) == DrainDeferred(CleanupContext(Condemned(s), script))
  {
  }

  // ---- Evolution --------------------------------------------------------------------------

  /** The phase of a connection: fresh, connecting, connected, disconnecting, closed with its
      context awaiting cleanup, dead. */
  function Rank(s: Wrap): nat {
    match s.context
    case None => if s.ledger.nextId == 0 then NOT_STARTED else FINISHED
    case Some(_) =>
      if s.connected then (if s.disconnecting then DISCONNECTING else ESTABLISHED)
      else if s.ledger.pending != {} then CONNECTING
      else AWAITING_CLEANUP
  }

  const NOT_STARTED: nat := 0
  const CONNECTING: nat := 1
  const ESTABLISHED: nat := 2
  const DISCONNECTING: nat := 3
  const AWAITING_CLEANUP: nat := 4
  const FINISHED: nat := 5

  /** Other connections keep their routes and their contexts. */
  ghost predicate Neighbourly(s: Wrap, t: Wrap) {
    && t.self == s.self
    && (forall c :: c in s.shared.contexts && s.shared.contexts[c] != s.self ==>
          c in t.shared.contexts && t.shared.contexts[c] == s.shared.contexts[c])
    && (forall c :: c in t.shared.contexts && t.shared.contexts[c] != s.self ==>
          c in s.shared.contexts && s.shared.contexts[c] == t.shared.contexts[c])
    && (forall c :: c in s.shared.live && s.context != Some(c) ==> c in t.shared.live && t.context != Some(c))
  }

  /** Promises are remembered, phases only move forward, and from the moment a disconnect has
      begun nothing but a disconnect succeeds. */
  ghost predicate Evolves(s: Wrap, t: Wrap) {
    && Neighbourly(s, t)
    && Remembers(s.ledger, t.ledger)
    && Lasting(s, t)
    && Rank(s) <= Rank(t)
    && (Rank(s) >= DISCONNECTING ==> NoNewSuccess(s.ledger, t.ledger))
  }

  lemma EvolvesTrans(a: Wrap, b: Wrap, c: Wrap)
    requires Evolves(a, b) && Evolves(b, c)
    ensures Evolves(a, c)
  {
    RemembersTrans(a.ledger, b.ledger, c.ledger);
    LastingTrans(a, b, c);
    if Rank(a) >= DISCONNECTING {
      NoNewSuccessTrans(a.ledger, b.ledger, c.ledger);
    }
  }

  lemma EvolvesQuietly(s: Wrap, t: Wrap)
    requires t.self == s.self && t.shared == s.shared && t.context == s.context
    requires t.ledger.promises == s.ledger.promises && t.ledger.nextId == s.ledger.nextId
    requires t.ledger.created == s.ledger.created
    requires forall id :: id in t.ledger.operations ==>
      id in s.ledger.operations && SameDeed(s.ledger.operations[id], t.ledger.operations[id])
    requires Lasting(s, t) && Rank(s) <= Rank(t)
    ensures Evolves(s, t)
  {
  }

  lemma EvolvesBySettling(s: Wrap, t: Wrap)
    requires t.self == s.self && t.shared == s.shared && t.context == s.context
    requires Remembers(s.ledger, t.ledger) && NoNewSuccess(s.ledger, t.ledger)
    requires Lasting(s, t) && Rank(s) <= Rank(t)
    ensures Evolves(s, t)
  {
  }

  // ---- Callbacks on a live connection -----------------------------------------------------

  /** The callback of `id` is about to run, with those of `busy` below it on the stack. */
  ghost predicate Called(s: Wrap, id: OpId, busy: set<OpId>) {
    && Steady(s, busy + {id})
    && s.context.Some?
    && id in s.ledger.operations
    && id !in s.ledger.outstanding
    && id !in busy
  }

  /** The callback of `id` has run: `id` is gone and the operations of `busy` are unharmed. */
  ghost predicate Returned(s: Wrap, t: Wrap, id: OpId, busy: set<OpId>) {
    Steady(t, busy) && Evolves(s, t) && Spares(s.ledger, t.ledger, {id})
  }

  lemma FinishReturns(s: Wrap, id: OpId, busy: set<OpId>)
    requires Called(s, id, busy) && s.ledger.operations[id].settled
    ensures Returned(s, Finish(s, id), id, busy)
  {
    hide LedgerInv, T.TableInv, P.LinkInv, Retire, Evolves;
    FinishSound(s, id);
    RetireFacts(s.ledger, id);
    EvolvesQuietly(s, Finish(s, id));
  }

  lemma SettleCalled(s: Wrap, id: OpId, outcome: Outcome, busy: set<OpId>)
    requires Called(s, id, busy) && Unsettled(s.ledger, id) && s.connected
    requires outcome.Rejected? || Rank(s) < DISCONNECTING || s.ledger.operations[id].kind.DisconnectOp?
    ensures var t := s.(ledger := Settle(s.ledger, id, outcome));
      Called(t, id, busy) && Evolves(s, t) && Spares(s.ledger, t.ledger, {id})
  {
    hide LedgerInv, T.TableInv, P.LinkInv, Settle, Remembers, NoNewSuccess;
    SettleFacts(s.ledger, id, outcome, {}, s.cleanupRef);
  }

  /** Only a connect operation can be open before the connection is up. */
  lemma OpenMeansConnected(s: Wrap, id: OpId, busy: set<OpId>)
    requires Called(s, id, busy) && Unsettled(s.ledger, id)
    requires !s.ledger.operations[id].kind.ConnectOp?
    ensures s.connected
    ensures s.disconnecting ==> s.ledger.operations[id].kind.DisconnectOp?
  {
    Membership(s.ledger, {}, s.cleanupRef);
    hide LedgerInv, T.TableInv, P.LinkInv;
  }

  /** Settle, then finish: the common end of the request callbacks. */
  lemma SettleFinish(s: Wrap, id: OpId, outcome: Outcome, busy: set<OpId>)
    requires Called(s, id, busy) && Unsettled(s.ledger, id) && s.connected
    requires outcome.Rejected? || Rank(s) < DISCONNECTING || s.ledger.operations[id].kind.DisconnectOp?
    ensures Returned(s, Finish(s.(ledger := Settle(s.ledger, id, outcome)), id), id, busy)
  {
    SettleCalled(s, id, outcome, busy);
    var t := s.(ledger := Settle(s.ledger, id, outcome));
    SettleFacts(s.ledger, id, outcome, {}, s.cleanupRef);
    hide Steady, Evolves, Settle, Finish, Spares, LedgerInv;
    FinishReturns(t, id, busy);
    EvolvesTrans(s, t, Finish(t, id));
    SparesTrans(s.ledger, t.ledger, Finish(t, id).ledger, {id});
  }

  lemma RejectFinish(s: Wrap, id: OpId, code: Code, busy: set<OpId>)
    requires Called(s, id, busy) && (Unsettled(s.ledger, id) ==> s.connected)
    ensures Returned(s, Finish(RejectOp(s, id, code), id), id, busy)
  {
    RejectIsSettle(s.ledger, id, code, {}, s.cleanupRef);
    hide Steady, Returned, Settle, Reject, Finish;
    if Unsettled(s.ledger, id) {
      SettleFinish(s, id, Rejected(code), busy);
    } else {
      assert s.(ledger := s.ledger) == s;
      FinishReturns(s, id, busy);
    }
  }

  lemma StatReturns(s: Wrap, id: OpId, status: int, busy: set<OpId>)
    requires Called(s, id, busy) && s.ledger.operations[id].kind.StatOp?
    ensures Returned(s, OnStatComplete(s, id, status), id, busy)
  {
    if s.ledger.operations[id].settled {
      FinishReturns(s, id, busy);
    } else {
      OpenMeansConnected(s, id, busy);
      var path := s.ledger.operations[id].path;
      if status < 0 {
        RejectFinish(s, id, Classified(status), busy);
      } else {
        SettleFinish(s, id, Resolved(Named(path, Paths.Basename(path))), busy);
      }
    }
    hide Steady, Returned, Settle, Reject, Finish;
  }

  lemma RequestReturns(s: Wrap, id: OpId, status: int, busy: set<OpId>)
    requires Called(s, id, busy) && !s.ledger.operations[id].kind.ConnectOp?
    ensures Returned(s, OnRequestComplete(s, id, status), id, busy)
  {
    if s.ledger.operations[id].settled {
      FinishReturns(s, id, busy);
    } else {
      OpenMeansConnected(s, id, busy);
      if Closing(s) {
        RejectFinish(s, id, ConnectionLost, busy);
      } else if status < 0 {
        RejectFinish(s, id, Classified(status), busy);
      } else {
        SettleFinish(s, id, Resolved(Reward(s.ledger.operations[id].kind, status)), busy);
      }
    }
    hide Steady, Returned, Settle, Reject, Finish;
  }

  /** Handing out or bouncing a handle touches nothing but its table. */
  lemma TableCalled(s: Wrap, files: T.Table, dirs: T.Table, id: OpId, busy: set<OpId>)
    requires Called(s, id, busy)
    requires T.TableInv(files) && T.TableInv(dirs)
    requires T.Continues(s.files, files) && T.Continues(s.dirs, dirs)
    requires s.connected || (files.entries == s.files.entries && dirs.entries == s.dirs.entries)
    ensures Called(s.(files := files, dirs := dirs), id, busy)
    ensures Evolves(s, s.(files := files, dirs := dirs))
  {
    hide LedgerInv, T.TableInv, P.LinkInv;
  }

  /** A handle delivered to an operation whose promise is open goes into the table. */
  lemma DeliverFinish(s: Wrap, files: T.Table, dirs: T.Table, id: OpId, value: Value, busy: set<OpId>)
    requires Called(s, id, busy) && Unsettled(s.ledger, id) && s.connected && !s.disconnecting
    requires T.TableInv(files) && T.TableInv(dirs) && T.Continues(s.files, files) && T.Continues(s.dirs, dirs)
    ensures Returned(s, Finish(ResolveOp(s.(files := files, dirs := dirs), id, value), id), id, busy)
  {
    var s1 := s.(files := files, dirs := dirs);
    TableCalled(s, files, dirs, id, busy);
    hide Called, Steady, Evolves, Settle, Finish;
    SettleFinish(s1, id, Resolved(value), busy);
    EvolvesTrans(s, s1, Finish(ResolveOp(s1, id, value), id));
  }

  /** A handle delivered to an operation nobody waits for is bounced; the operation is left. */
  lemma BounceCalled(s: Wrap, id: OpId, busy: set<OpId>)
    requires Called(s, id, busy)
    ensures var t := Touch(s.(files := T.Bounce(s.files))); Called(t, id, busy) && Evolves(s, t)
    ensures var t := Touch(s.(dirs := T.Bounce(s.dirs))); Called(t, id, busy) && Evolves(s, t)
  {
    T.BounceKeeps(s.files);
    T.BounceKeeps(s.dirs);
    T.BounceContinues(s.files);
    T.BounceContinues(s.dirs);
    hide T.TableInv, T.Continues, T.Bounce;
    TableCalled(s, T.Bounce(s.files), s.dirs, id, busy);
    TableCalled(s, s.files, T.Bounce(s.dirs), id, busy);
    assert s.(files := T.Bounce(s.files)) == s.(files := T.Bounce(s.files), dirs := s.dirs);
    assert s.(dirs := T.Bounce(s.dirs)) == s.(files := s.files, dirs := T.Bounce(s.dirs));
    hide LedgerInv, P.LinkInv, Evolves;
  }

  lemma OpendirReturns(s: Wrap, id: OpId, status: int, busy: set<OpId>)
    requires Called(s, id, busy) && s.ledger.operations[id].kind.OpendirOp?
    ensures Returned(s, OnOpendirComplete(s, id, status), id, busy)
  {
    hide Steady, Evolves, Settle, Finish, RejectOp, Touch, T.Bounce, T.Insert, T.TableInv;
    var op := s.ledger.operations[id];
    if !op.settled {
      OpenMeansConnected(s, id, busy);
      TablesSound(s, busy + {id});
      T.InsertKeeps(s.dirs, op.path);
      T.InsertContinues(s.dirs, op.path);
    }
    if op.settled {
      var s1 := Touch(s.(dirs := T.Bounce(s.dirs)));
      if status != 0 {
        RejectFinish(s, id, ConnectionLost, busy);
      } else {
        BounceCalled(s, id, busy);
        assert s1.ledger == s.ledger by { TouchFrame(s.(dirs := T.Bounce(s.dirs))); }
        RejectFinish(s1, id, ConnectionLost, busy);
        EvolvesTrans(s, s1, Finish(RejectOp(s1, id, ConnectionLost), id));
      }
    } else if status < 0 {
      RejectFinish(s, id, Classified(status), busy);
    } else {
      DeliverFinish(s, s.files, T.Insert(s.dirs, op.path), id, Number(s.dirs.next), busy);
      assert s.(dirs := T.Insert(s.dirs, op.path)) == s.(files := s.files, dirs := T.Insert(s.dirs, op.path));
    }
  }

  lemma TouchFrame(s: Wrap)
    ensures Touch(s) == s.(faults := Touch(s).faults)
  {
  }

  lemma TablesSound(s: Wrap, busy: set<OpId>)
    requires Steady(s, busy)
    ensures T.TableInv(s.files) && T.TableInv(s.dirs)
  {
  }

  lemma ConnectReturns(s: Wrap, id: OpId, status: int, nested: Script, busy: set<OpId>)
    requires Called(s, id, busy) && s.ledger.operations[id].kind.ConnectOp?
    ensures Returned(s, OnConnectComplete(s, id, status, nested), id, busy)
  {
    if s.ledger.operations[id].settled {
      FinishReturns(s, id, busy);
    } else if status < 0 {
      ConnectFailureReturns(s, id, status, nested, busy);
    } else {
      ConnectSuccessReturns(s, id, busy);
    }
    hide Steady, Evolves, Settle, Finish, RejectOp;
  }

  lemma ConnectedCalled(s: Wrap, id: OpId, busy: set<OpId>)
    requires Called(s, id, busy) && s.ledger.operations[id].kind.ConnectOp? && Unsettled(s.ledger, id)
    ensures var t := ResolveOp(s.(connected := true, disconnecting := false), id, Connection);
      Called(t, id, busy) && Evolves(s, t) && Spares(s.ledger, t.ledger, {id})
  {
    hide LedgerInv, T.TableInv, P.LinkInv, Settle, Remembers, NoNewSuccess;
    OnlyConnect(s, id, busy);
    SettleFacts(s.ledger, id, Resolved(Connection), {}, s.cleanupRef);
  }

  lemma ConnectSuccessReturns(s: Wrap, id: OpId, busy: set<OpId>)
    requires Called(s, id, busy) && s.ledger.operations[id].kind.ConnectOp? && Unsettled(s.ledger, id)
    ensures Returned(s, Finish(ResolveOp(s.(connected := true, disconnecting := false), id, Connection), id), id, busy)
  {
    ConnectedCalled(s, id, busy);
    var s1 := ResolveOp(s.(connected := true, disconnecting := false), id, Connection);
    SettleFacts(s.ledger, id, Resolved(Connection), {}, s.cleanupRef);
    hide Called, Steady, Settle, Finish, Evolves, Spares;
    FinishReturns(s1, id, busy);
    EvolvesTrans(s, s1, Finish(s1, id));
    SparesTrans(s.ledger, s1.ledger, Finish(s1, id).ledger, {id});
  }

  lemma SoleElement(ids: set<OpId>, id: OpId)
    requires |ids| == 1 && id in ids
    ensures ids == {id}
  {
    assert |ids - {id}| == 0;
  }

  lemma TornDownSteady(s: Wrap, t: Wrap, busy: set<OpId>)
    requires TornDown(s, t) && Routed(s) && s.ledger.nextId > 0
    requires s.ledger.deferred == multiset{} || s.scheduleFailed
    ensures Steady(t, busy) && Evolves(s, t) && Spares(s.ledger, t.ledger, {})
  {
    hide LedgerInv, T.TableInv, P.LinkInv;
  }

  lemma FinishDead(s: Wrap, id: OpId, busy: set<OpId>)
    requires Steady(s, busy) && s.context.None? && id in s.ledger.operations
    ensures Steady(Finish(s, id), busy) && Evolves(s, Finish(s, id)) && Spares(s.ledger, Finish(s, id).ledger, {id})
  {
    hide LedgerInv, T.TableInv, P.LinkInv, Retire, Evolves;
    FinishSound(s, id);
    RetireFacts(s.ledger, id);
    assert s.ledger.nextId > 0 by { Membership(s.ledger, {}, s.cleanupRef); }
    EvolvesQuietly(s, Finish(s, id));
  }

  /** A connect operation whose promise is open is all there is. */
  lemma OnlyConnect(s: Wrap, id: OpId, busy: set<OpId>)
    requires Called(s, id, busy) && s.ledger.operations[id].kind.ConnectOp? && Unsettled(s.ledger, id)
    ensures s.ledger.operations.Keys == {id} && s.ledger.pending == {id} && s.ledger.deferred == multiset{}
    ensures !s.connected && Rank(s) == CONNECTING
  {
    Membership(s.ledger, {}, s.cleanupRef);
    hide LedgerInv, T.TableInv, P.LinkInv;
    SoleElement(s.ledger.pending, id);
  }

  lemma RejectedConnect(s: Wrap, id: OpId, code: Code, busy: set<OpId>)
    requires Called(s, id, busy) && s.ledger.operations[id].kind.ConnectOp? && Unsettled(s.ledger, id)
    ensures var t := RejectOp(s, id, code);
      && Sound(t) && Routed(t) && AllSettled(t.ledger) && t.ledger.nextId > 0 && Evolves(s, t)
      && Spares(s.ledger, t.ledger, {id})
      && t == s.(ledger := t.ledger) && t.ledger.deferred == multiset{}
      && id in t.ledger.operations && id !in t.ledger.outstanding
  {
    hide LedgerInv, T.TableInv, P.LinkInv, Settle, Remembers, NoNewSuccess, Reject, Evolves;
    OnlyConnect(s, id, busy);
    RejectIsSettle(s.ledger, id, code, {}, s.cleanupRef);
    SettleFacts(s.ledger, id, Rejected(code), {}, s.cleanupRef);
    Membership(s.ledger, {}, s.cleanupRef);
    EvolvesBySettling(s, RejectOp(s, id, code));
  }

  lemma ConnectFailureReturns(s: Wrap, id: OpId, status: int, nested: Script, busy: set<OpId>)
    requires Called(s, id, busy) && s.ledger.operations[id].kind.ConnectOp? && Unsettled(s.ledger, id)
    ensures Returned(s, Finish(CleanupContext(RejectOp(s, id, Classified(status)), nested), id), id, busy)
  {
    RejectedConnect(s, id, Classified(status), busy);
    hide Steady, Evolves, Sound, Finish, RejectOp, CleanupContext, AllSettled, Routed, Spares;
    var s1 := RejectOp(s, id, Classified(status));
    CleanupEffect(s1, nested);
    var s2 := CleanupContext(s1, nested);
    TornDownSteady(s1, s2, busy);
    FinishDead(s2, id, busy);
    var t := Finish(s2, id);
    EvolvesTrans(s, s1, s2);
    EvolvesTrans(s, s2, t);
    SparesMore(s1.ledger, s2.ledger, {id});
    SparesTrans(s.ledger, s1.ledger, s2.ledger, {id});
    SparesTrans(s.ledger, s2.ledger, t.ledger, {id});
  }

  /** OnDisconnectComplete settles its own promise first, if it is still open. */
  function AnsweredDisconnect(s: Wrap, id: OpId, status: int): Wrap
    requires id in s.ledger.operations
  {
    if s.ledger.operations[id].settled then s
    else if status < 0 then RejectOp(s, id, Classified(status))
    else ResolveOp(s, id, Undefined)
  }

  lemma AnsweredDisconnectCalled(s: Wrap, id: OpId, status: int, busy: set<OpId>)
    requires Called(s, id, busy) && s.ledger.operations[id].kind.DisconnectOp?
    ensures var t := AnsweredDisconnect(s, id, status);
      && Called(t, id, busy) && Evolves(s, t) && Spares(s.ledger, t.ledger, {id})
      && t.ledger.operations[id].settled
  {
    if s.ledger.operations[id].settled {
      SparesRefl(s.ledger, {id});
      EvolvesQuietly(s, s);
    } else {
      OpenMeansConnected(s, id, busy);
      RejectIsSettle(s.ledger, id, Classified(status), {}, s.cleanupRef);
      var outcome := if status < 0 then Rejected(Classified(status)) else Resolved(Undefined);
      SettleCalled(s, id, outcome, busy);
      SettleFacts(s.ledger, id, outcome, {}, s.cleanupRef);
    }
    hide Called, Steady, Evolves, Spares, Settle, Reject;
  }

  /** The rest of OnDisconnectComplete, from a settled disconnect operation on. */
  function WoundUp(s: Wrap, id: OpId): Wrap {
    Finish(QueueForCleanup(Disconnected(s), {id}), id)
  }

  lemma QueueEffect(s: Wrap, id: OpId)
    requires Sound(s) && id in s.ledger.operations && s.ledger.operations[id].settled
    ensures var t := QueueForCleanup(s, {id});
      && Sound(t) && AllSettled(t.ledger) && t == s.(ledger := t.ledger, timer := t.timer)
      && t.timer.initialized == s.timer.initialized
      && t.ledger.pending <= {id}
      && t.ledger.outstanding == s.ledger.outstanding
      && t.ledger.operations.Keys == s.ledger.operations.Keys
      && Spares(s.ledger, t.ledger, {id})
      && OnlyRejects(s.ledger, t.ledger, ConnectionLost)
  {
    hide LedgerInv, Defer, OnlyRejects, Sound;
    SoundMembership(s);
    DeferFacts(s.ledger, {id}, s.cleanupRef);
    QueueSound(s, {id});
    var t := QueueForCleanup(s, {id});
    forall x | x in t.ledger.operations ensures t.ledger.operations[x].settled {
      assert !Unsettled(t.ledger, x);
    }
  }

  lemma SoundMembership(s: Wrap)
    requires Sound(s)
    ensures LedgerInv(s.ledger, {}, s.cleanupRef)
    ensures s.ledger.outstanding <= s.ledger.operations.Keys
    ensures forall id :: Unsettled(s.ledger, id) ==> id in s.ledger.pending
  {
    Membership(s.ledger, {}, s.cleanupRef);
  }

  lemma WoundUpEffect(s: Wrap, id: OpId, busy: set<OpId>)
    requires Called(s, id, busy) && s.ledger.operations[id].settled && !Connecting(s)
    ensures var t := WoundUp(s, id);
      && Sound(t) && AllSettled(t.ledger) && t.ledger.pending == {}
      && t.self == s.self && t.shared == s.shared && t.context == s.context
      && !t.connected && !t.disconnecting && t.files.entries == map[] && t.dirs.entries == map[]
      && Lasting(s, t)
      && OnlyRejects(s.ledger, t.ledger, ConnectionLost)
      && Spares(s.ledger, t.ledger, {id})
      && (forall x :: x in t.ledger.operations ==> x in t.ledger.outstanding || x in busy)
      && t.timer.initialized && (t.timer.mode != Off && !t.scheduleFailed ==> t.cleanupPending)
      && t.scheduleFailed == s.scheduleFailed
  {
    hide LedgerInv, T.TableInv, P.LinkInv, Defer, Retire, OnlyRejects, QueueForCleanup;
    DisconnectedSound(s);
    QueueEffect(Disconnected(s), id);
    var s2 := QueueForCleanup(Disconnected(s), {id});
    FinishSound(s2, id);
    RetireFacts(s2.ledger, id);
    OnlyRejectsSame(s.ledger, s2.ledger, Finish(s2, id).ledger, ConnectionLost);
  }

  lemma SparesRefl(m: Ledger, gone: set<OpId>)
    ensures Spares(m, m, gone)
  {
  }

  /** A connection that has wound up is steady once the cleanup is scheduled, or cannot be. */
  lemma ScheduledSteady(s: Wrap, reply: Reply, busy: set<OpId>)
    requires Sound(s) && Routed(s) && AllSettled(s.ledger) && s.context.Some? && s.ledger.nextId > 0
    requires s.ledger.pending == {} && !s.connected && !s.disconnecting
    requires s.files.entries == map[] && s.dirs.entries == map[]
    requires forall x :: x in s.ledger.operations ==> x in s.ledger.outstanding || x in busy
    requires s.timer.initialized && (s.timer.mode != Off && !s.scheduleFailed ==> s.cleanupPending)
    ensures var t := ScheduleCleanup(s, reply);
      && Steady(t, busy) && Evolves(s, t) && Rank(t) == AWAITING_CLEANUP
      && t.ledger == s.ledger.(refs := t.ledger.refs)
  {
    hide LedgerInv, T.TableInv, P.LinkInv, AddRefs, Evolves;
    ScheduleSound(s, reply);
    AddRefsFacts(s.ledger, (if Arms(s.timer, reply) then 1 else 0) - (if s.cleanupRef then 1 else 0));
    EvolvesQuietly(s, ScheduleCleanup(s, reply));
  }

  lemma DisconnectSplit(s: Wrap, id: OpId, status: int, reply: Reply)
    requires id in s.ledger.operations
    ensures OnDisconnectComplete(s, id, status, reply)
         == ScheduleCleanup(WoundUp(AnsweredDisconnect(s, id, status), id), reply)
  {
  }

  lemma WoundUpEvolves(s: Wrap, id: OpId, busy: set<OpId>)
    requires Called(s, id, busy) && s.ledger.operations[id].kind.DisconnectOp? && s.ledger.operations[id].settled
    ensures Evolves(s, WoundUp(s, id)) && Routed(WoundUp(s, id))
    ensures WoundUp(s, id).ledger.nextId > 0
  {
    hide LedgerInv, T.TableInv, P.LinkInv, Remembers, NoNewSuccess, OnlyRejects, WoundUp, Spares;
    assert !Connecting(s);
    WoundUpEffect(s, id, busy);
    var t := WoundUp(s, id);
    assert Rank(s) <= AWAITING_CLEANUP == Rank(t) by {
      NextIdKept(s.ledger, t.ledger);
      Membership(s.ledger, {}, s.cleanupRef);
    }
    OnlyRejectsEvolves(s.ledger, t.ledger, ConnectionLost);
    EvolvesBySettling(s, t);
    assert t.ledger.nextId > 0 by { NextIdKept(s.ledger, t.ledger); Membership(s.ledger, {}, s.cleanupRef); }
  }

  lemma WindUpReturns(s: Wrap, id: OpId, reply: Reply, busy: set<OpId>)
    requires Called(s, id, busy) && s.ledger.operations[id].kind.DisconnectOp? && s.ledger.operations[id].settled
    ensures Returned(s, ScheduleCleanup(WoundUp(s, id), reply), id, busy)
  {
    assert s.context.Some? && s.ledger.nextId > 0 && !Connecting(s);
    hide Steady, WoundUp, Spares, Evolves, Sound, Routed, ScheduleCleanup, OnlyRejects, Connecting, AllSettled;
    WoundUpEffect(s, id, busy);
    WoundUpEvolves(s, id, busy);
    var s1 := WoundUp(s, id);
    var t := ScheduleCleanup(s1, reply);
    ScheduledSteady(s1, reply, busy);
    EvolvesTrans(s, s1, t);
    SparesRefs(s1.ledger, t.ledger);
    SparesTrans(s.ledger, s1.ledger, t.ledger, {id});
  }

  lemma DisconnectReturns(s: Wrap, id: OpId, status: int, reply: Reply, busy: set<OpId>)
    requires Called(s, id, busy) && s.ledger.operations[id].kind.DisconnectOp?
    ensures Returned(s, OnDisconnectComplete(s, id, status, reply), id, busy)
  {
    AnsweredDisconnectCalled(s, id, status, busy);
    DisconnectSplit(s, id, status, reply);
    var s1 := AnsweredDisconnect(s, id, status);
    assert s1.ledger.operations[id].kind.DisconnectOp?;
    hide Called, Steady, Spares, Evolves, AnsweredDisconnect, WoundUp, ScheduleCleanup, OnDisconnectComplete;
    WindUpReturns(s1, id, reply, busy);
    var t := ScheduleCleanup(WoundUp(s1, id), reply);
    EvolvesTrans(s, s1, t);
    SparesTrans(s.ledger, s1.ledger, t.ledger, {id});
  }

  lemma NextIdKept(m: Ledger, t: Ledger)
    requires OnlyRejects(m, t, ConnectionLost)
    ensures t.nextId == m.nextId
  {
  }

  lemma SparesRefs(m: Ledger, t: Ledger)
    requires t == m.(refs := t.refs)
    ensures forall gone :: Spares(m, t, gone)
  {
  }

  // ---- libsmb2 in control of a live context -----------------------------------------------

  /** If `ctx` is registered at all, it is registered for this connection. */
  ghost predicate Serves(s: Wrap, ctx: CtxId) {
    ctx in s.shared.contexts ==> s.shared.contexts[ctx] == s.self
  }

  /** What holds before and after anything libsmb2 does between two callbacks. */
  ghost predicate Serving(s: Wrap, ctx: CtxId, busy: set<OpId>) {
    Steady(s, busy) && Serves(s, ctx) && s.ledger.outstanding !! busy
  }

  ghost predicate Served(s: Wrap, t: Wrap, ctx: CtxId, busy: set<OpId>) {
    Serving(t, ctx, busy) && Evolves(s, t) && Spares(s.ledger, t.ledger, {})
  }

  lemma ServedTrans(a: Wrap, b: Wrap, c: Wrap, ctx: CtxId, busy: set<OpId>)
    requires Served(a, b, ctx, busy) && Served(b, c, ctx, busy)
    ensures Served(a, c, ctx, busy)
  {
    hide Serving, Evolves, Spares;
    EvolvesTrans(a, b, c);
    SparesTrans(a.ledger, b.ledger, c.ledger, {});
  }

  lemma LinkServed(s: Wrap, link: P.Link, ctx: CtxId, busy: set<OpId>)
    requires Serving(s, ctx, busy)
    requires P.LinkInv(link) && s.context.Some?
    ensures Served(s, s.(link := link), ctx, busy)
  {
    hide LedgerInv, T.TableInv, P.LinkInv;
    SparesRefl(s.ledger, {});
  }

  lemma ReportServed(s: Wrap, ctx: CtxId, act: Act, busy: set<OpId>)
    requires Serving(s, ctx, busy) && !act.Complete?
    ensures Served(s, RunAct(s, ctx, act, false), ctx, busy)
  {
    if RoutesHere(s, ctx) {
      assert P.LinkInv(s.link) && s.context.Some?;
      match act
      case FdChanged(fd, add) =>
        P.StartKeeps(s.link, fd);
        P.StopKeeps(s.link);
        hide LedgerInv, T.TableInv, P.LinkInv, Served;
        LinkServed(s, if add then P.Start(s.link, fd) else P.Stop(s.link), ctx, busy);
      case EventsChanged(mask) =>
        P.AskKeeps(s.link, mask);
        hide LedgerInv, T.TableInv, P.LinkInv, Served;
        LinkServed(s, P.Apply(P.Ask(s.link, mask)), ctx, busy);
    } else {
      hide LedgerInv, T.TableInv, P.LinkInv;
      assert RunAct(s, ctx, act, false) == s;
      SparesRefl(s.ledger, {});
      EvolvesQuietly(s, s);
    }
  }

  lemma FiredCalled(s: Wrap, ctx: CtxId, id: OpId, busy: set<OpId>)
    requires Serving(s, ctx, busy) && id in s.ledger.outstanding
    ensures var t := s.(ledger := Fired(s.ledger, id));
      Called(t, id, busy) && Evolves(s, t) && Serves(t, ctx) && t.ledger.outstanding !! busy
  {
    hide LedgerInv, T.TableInv, P.LinkInv, Evolves;
    Membership(s.ledger, {}, s.cleanupRef);
    FiredKeeps(s.ledger, id, s.cleanupRef);
    EvolvesQuietly(s, s.(ledger := Fired(s.ledger, id)));
  }

  lemma ReturnedServed(s: Wrap, ctx: CtxId, id: OpId, t: Wrap, busy: set<OpId>)
    requires Serving(s, ctx, busy) && id in s.ledger.outstanding
    requires Evolves(s, s.(ledger := Fired(s.ledger, id)))
    requires Returned(s.(ledger := Fired(s.ledger, id)), t, id, busy)
    ensures Served(s, t, ctx, busy)
  {
    hide Steady;
    EvolvesTrans(s, s.(ledger := Fired(s.ledger, id)), t);
  }

  /** The end of a callback whose operation is settled, on a context that may be gone by now. */
  lemma BouncedFinish(s: Wrap, id: OpId, busy: set<OpId>)
    requires Steady(s, busy + {id}) && id in s.ledger.operations && s.ledger.operations[id].settled
    requires id !in s.ledger.outstanding && id !in busy
    ensures Returned(s, Finish(RejectOp(s, id, ConnectionLost), id), id, busy)
  {
    RejectSettled(s.ledger, id, ConnectionLost);
    assert RejectOp(s, id, ConnectionLost) == s;
    hide RejectOp, Finish, Evolves, Spares;
    if s.context.Some? {
      FinishReturns(s, id, busy);
    } else {
      FinishDead(s, id, busy);
    }
  }

  lemma {:induction false} ScriptServed(s: Wrap, ctx: CtxId, script: Script, busy: set<OpId>)
    requires Serving(s, ctx, busy)
    ensures Served(s, RunScript(s, ctx, script, false), ctx, busy)
    decreases script, 0
  {
    if script == [] {
      SparesRefl(s.ledger, {});
      EvolvesQuietly(s, s);
    } else {
      hide Serving, Evolves, Spares, RunAct;
      var s1 := RunAct(s, ctx, script[0], false);
      ActServed(s, ctx, script[0], busy);
      ScriptServed(s1, ctx, script[1..], busy);
      ServedTrans(s, s1, RunScript(s1, ctx, script[1..], false), ctx, busy);
    }
  }

  lemma {:induction false} ActServed(s: Wrap, ctx: CtxId, act: Act, busy: set<OpId>)
    requires Serving(s, ctx, busy)
    ensures Served(s, RunAct(s, ctx, act, false), ctx, busy)
    decreases act
  {
    if !act.Complete? {
      ReportServed(s, ctx, act, busy);
    } else if act.op in s.ledger.outstanding {
      FiredCalled(s, ctx, act.op, busy);
      var s1 := s.(ledger := Fired(s.ledger, act.op));
      CompleteReturns(s1, ctx, act.op, act.status, act.reply, act.nested, busy);
      hide Called, Serving, Evolves, Returned, OnComplete;
      ReturnedServed(s, ctx, act.op, RunAct(s, ctx, act, false), busy);
    } else {
      SparesRefl(s.ledger, {});
      EvolvesQuietly(s, s);
    }
  }

  lemma {:induction false} CompleteReturns(s: Wrap, ctx: CtxId, id: OpId, status: int, reply: Reply,
                                           nested: Script, busy: set<OpId>)
    requires Called(s, id, busy) && Serves(s, ctx) && s.ledger.outstanding !! busy
    ensures Returned(s, OnComplete(s, id, status, reply, nested), id, busy)
    decreases nested, 4
  {
    hide Called, Returned;
    assert id in s.ledger.operations by { CalledAlive(s, id, busy); }
    match s.ledger.operations[id].kind {
      case ConnectOp => ConnectReturns(s, id, status, nested, busy);
      case DisconnectOp => DisconnectReturns(s, id, status, reply, busy);
      case StatOp => StatReturns(s, id, status, busy);
      case OpenOp => OpenReturns(s, ctx, id, status, nested, busy);
      case OpendirOp => OpendirReturns(s, id, status, busy);
      case _ => RequestReturns(s, id, status, busy);
    }
  }

  lemma CalledAlive(s: Wrap, id: OpId, busy: set<OpId>)
    requires Called(s, id, busy)
    ensures id in s.ledger.operations
  {
  }

  lemma {:induction false} OpenReturns(s: Wrap, ctx: CtxId, id: OpId, status: int, nested: Script, busy: set<OpId>)
    requires Called(s, id, busy) && s.ledger.operations[id].kind.OpenOp? && s.ledger.outstanding !! busy
    ensures Returned(s, OnOpenComplete(s, id, status, nested), id, busy)
    decreases nested, 3
  {
    var op := s.ledger.operations[id];
    if !op.settled {
      OpenMeansConnected(s, id, busy);
      TablesSound(s, busy + {id});
      T.InsertKeeps(s.files, op.path);
      T.InsertContinues(s.files, op.path);
    }
    hide Steady, Evolves, Settle, Finish, RejectOp, Touch, T.Bounce, T.Insert, T.TableInv;
    if op.settled {
      if status != 0 {
        RejectFinish(s, id, ConnectionLost, busy);
      } else {
        BounceReturns(s, id, nested, busy);
      }
    } else if status < 0 {
      RejectFinish(s, id, Classified(status), busy);
    } else {
      DeliverFinish(s, T.Insert(s.files, op.path), s.dirs, id, Number(s.files.next), busy);
      assert s.(files := T.Insert(s.files, op.path)) == s.(files := T.Insert(s.files, op.path), dirs := s.dirs);
    }
  }

  /** An open that nobody waits for closes its handle, which lets libsmb2 fire other callbacks
      in the middle of this one. */
  lemma {:induction false} BounceReturns(s: Wrap, id: OpId, nested: Script, busy: set<OpId>)
    requires Called(s, id, busy) && s.ledger.operations[id].settled && s.ledger.outstanding !! busy
    ensures var s1 := RunScript(Touch(s.(files := T.Bounce(s.files))), s.context.value, nested, false);
      Returned(s, Finish(RejectOp(s1, id, ConnectionLost), id), id, busy)
    decreases nested, 2
  {
    var ctx := s.context.value;
    var s1 := Touch(s.(files := T.Bounce(s.files)));
    BouncedServing(s, id, busy);
    hide Called, Serving, Steady, Evolves, Finish, RejectOp, Touch, T.Bounce, Spares;
    ScriptServed(s1, ctx, nested, busy + {id});
    var s2 := RunScript(s1, ctx, nested, false);
    BounceSpared(s, s1, s2, ctx, id, busy);
    BouncedFinish(s2, id, busy);
    var t := Finish(RejectOp(s2, id, ConnectionLost), id);
    EvolvesTrans(s, s2, t);
    SparesTrans(s.ledger, s2.ledger, t.ledger, {id});
  }

  lemma BouncedServing(s: Wrap, id: OpId, busy: set<OpId>)
    requires Called(s, id, busy) && s.ledger.operations[id].settled && s.ledger.outstanding !! busy
    ensures var t := Touch(s.(files := T.Bounce(s.files)));
      Serving(t, s.context.value, busy + {id}) && Evolves(s, t) && t.ledger == s.ledger
  {
    BounceCalled(s, id, busy);
    TouchFrame(s.(files := T.Bounce(s.files)));
    hide LedgerInv, T.TableInv, P.LinkInv, Evolves;
  }

  lemma BounceSpared(s: Wrap, s1: Wrap, s2: Wrap, ctx: CtxId, id: OpId, busy: set<OpId>)
    requires id in s.ledger.operations && s.ledger.operations[id].settled
    requires id !in s.ledger.outstanding && id !in busy
    requires Evolves(s, s1) && s1.ledger == s.ledger && Served(s1, s2, ctx, busy + {id})
    ensures Steady(s2, busy + {id}) && id in s2.ledger.operations && s2.ledger.operations[id].settled
    ensures id !in s2.ledger.outstanding && id !in busy
    ensures Evolves(s, s2) && Spares(s.ledger, s2.ledger, {id})
  {
    hide Steady;
    EvolvesTrans(s, s1, s2);
  }
}
