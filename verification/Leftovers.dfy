/**
 What a connection can leave behind for good: operations nobody will free, and wrappers nobody
 will collect.
 */
module Leftovers {
  import opened Options
  import opened Operations
  import opened Lifecycle
  import opened Invariants
  import opened Steps
  import opened World
  import opened Teardown
  import opened Theorems
  import T = HandleTable
  import P = PollLink

  // ---- A teardown, read off its script ----------------------------------------------------

  /** Everything about a teardown that its script decides. */
  ghost predicate CleansUp(s: Wrap, t: Wrap, names: set<OpId>) {
    && t.context == None
    && t.ledger.pending == (if Disconnects(s.ledger, names) then {}
                            else s.ledger.pending - s.ledger.outstanding * names)
    && (!Disconnects(s.ledger, names) ==>
          && t.cleanupRef == s.cleanupRef && !t.cleanupPending
          && t.scheduleFailed == s.scheduleFailed && t.timer.mode == Off)
  }

  lemma DyingLeaves(s: Wrap, script: Script)
    requires Sound(s) && Routed(s) && AllSettled(s.ledger) && s.context.Some?
    ensures Leaves(Dismantle(s), RunScript(Dismantle(s), s.context.value, script, true), FiredBy(script))
    ensures Dismantle(s).ledger == s.ledger && Dismantle(s).timer.mode == Off
  {
    hide Routed, LedgerInv, T.TableInv, P.LinkInv, Leaves;
    DismantleDying(s);
    ScriptLeaves(Dismantle(s), s.context.value, script);
  }

  lemma CleanupLeaves(s: Wrap, script: Script)
    requires Sound(s) && Routed(s) && AllSettled(s.ledger) && s.context.Some?
    ensures CleansUp(s, CleanupContext(s, script), FiredBy(script))
  {
    hide Sound, Routed, AllSettled, Dying, RunScript;
    DyingLeaves(s, script);
    DismantleDying(s);
    DestroyEffect(Dismantle(s), s.context.value, script);
    SameDisconnects(Dismantle(s).ledger, s.ledger, FiredBy(script));
    hide Destroy, Disconnects;
  }

  lemma SameDisconnects(m: Ledger, t: Ledger, names: set<OpId>)
    requires t.outstanding == m.outstanding
    requires forall id :: id in m.outstanding ==> (IsDisconnect(m, id) <==> IsDisconnect(t, id))
    ensures Disconnects(m, names) <==> Disconnects(t, names)
  {
    if Disconnects(m, names) {
      var id :| id in m.outstanding && id in names && IsDisconnect(m, id);
      assert IsDisconnect(t, id);
    }
    if Disconnects(t, names) {
      var id :| id in t.outstanding && id in names && IsDisconnect(t, id);
      assert IsDisconnect(m, id);
    }
  }

  // ---- A refused disconnect ---------------------------------------------------------------

  /** The teardown of a disconnect that libsmb2 refused does not drain.  What it leaves allocated
      is what was outstanding before the call and is not called back by the dying context; and
      unless another disconnect is called back, all of that stays pending and holds references. */
  lemma RefusedDisconnectLeaves(s: Wrap, now: nat, reply: Reply, rc: int, script: Script)
    requires Steady(s, {}) && s.connected && Arms(s.timer, reply) && rc < 0
    ensures var t := Disconnect(s, now, reply, rc, script);
      var left := s.ledger.outstanding - FiredBy(script);
      && t.context == None
      && t.ledger.operations.Keys == left
      && (t.ledger.operations == map[] <==> s.ledger.outstanding <= FiredBy(script))
      && t.ledger.pending == (if Disconnects(s.ledger, FiredBy(script)) then {} else left)
      && (!Disconnects(s.ledger, FiredBy(script)) ==>
            !t.cleanupRef && !t.cleanupPending && t.timer.mode == Off && t.ledger.refs == |left|)
  {
    var id := s.ledger.nextId;
    var s3 := RejectOp(Leaving(s, now, reply), id, Classified(rc));
    var t := Disconnect(s, now, reply, rc, script);
    RefusedState(s, now, reply, rc);
    RefusedCall(s, now, reply, rc, script);
    DisconnectKeeps(s, now, reply, rc, script);
    KeptCounts(s, t);
    hide Steady, Kept, Disconnect, RejectOp, Sound, Routed, AllSettled, CleanupContext, Finish, Disconnects, CleansUp;
    LeftoverOperations(s3, id, script);
    CleanupLeaves(s3, script);
    SameDisconnects(s3.ledger, s.ledger, FiredBy(script));
    FinishLeft(s3, CleanupContext(s3, script), id, script);
    var left := s.ledger.outstanding - FiredBy(script);
    assert left == {} <==> s.ledger.outstanding <= FiredBy(script);
    assert t.ledger.operations.Keys == {} <==> t.ledger.operations == map[];
  }

  lemma KeptCounts(s: Wrap, t: Wrap)
    requires Kept(s, t)
    ensures t.ledger.refs == |t.ledger.pending| + (if t.cleanupRef then 1 else 0)
  {
    hide Evolves;
  }

  lemma RefusedCall(s: Wrap, now: nat, reply: Reply, rc: int, script: Script)
    requires Steady(s, {}) && s.connected && Arms(s.timer, reply) && rc < 0
    ensures Disconnect(s, now, reply, rc, script)
         == Finish(CleanupContext(RejectOp(Leaving(s, now, reply), s.ledger.nextId, Classified(rc)), script),
                   s.ledger.nextId)
  {
    AllRejected(s);
    var s1 := RejectAll(s.(disconnecting := true), ConnectionLost);
    LeavingCalled(s1, now, reply);
    AliveIsOld(Enlisted(s1, DisconnectOp, now, [], reply), {s1.ledger.nextId});
    hide Steady, RejectAll, Enlisted, RejectOp, CleanupContext, Finish, HandleFatal;
  }

  /** A connection whose disconnect has just been refused and rejected. */
  lemma RefusedState(s: Wrap, now: nat, reply: Reply, rc: int)
    requires Steady(s, {}) && s.connected && Arms(s.timer, reply)
    ensures var id := s.ledger.nextId;
      var t := RejectOp(Leaving(s, now, reply), id, Classified(rc));
      && Sound(t) && Routed(t) && AllSettled(t.ledger) && t.context.Some?
      && id in t.ledger.operations && id !in t.ledger.outstanding
      && (forall x :: x in t.ledger.operations ==> x in t.ledger.outstanding || x == id)
      && t.ledger.outstanding == s.ledger.outstanding
      && t.ledger.pending == s.ledger.outstanding + {id}
      && !t.cleanupRef
      && (forall x :: x in s.ledger.outstanding ==> (IsDisconnect(t.ledger, x) <==> IsDisconnect(s.ledger, x)))
  {
    var id := s.ledger.nextId;
    var s1 := RejectAll(s.(disconnecting := true), ConnectionLost);
    AllRejected(s);
    LeavingCalled(s1, now, reply);
    LeavingFields(s1, now, reply);
    var s2 := Enlisted(s1, DisconnectOp, now, [], reply);
    LeaveRejected(s2, id, Classified(rc));
    RefusedOwners(s2, id, Classified(rc));
    LeavingLedger(s, now, reply);
    RejectKeepsLists(s2.ledger, id, Classified(rc));
    hide Steady, Called, RejectAll, Enlisted, Routed, AllSettled, Evolves, Sound, Reject;
  }

  lemma RejectKeepsLists(m: Ledger, id: OpId, code: Code)
    ensures var t := Reject(m, id, code);
      && t.outstanding == m.outstanding && t.pending == m.pending
      && (forall x :: IsDisconnect(t, x) <==> IsDisconnect(m, x))
  {
  }

  lemma LeavingLedger(s: Wrap, now: nat, reply: Reply)
    requires Steady(s, {}) && s.connected
    ensures var t := Leaving(s, now, reply);
      && t.ledger.outstanding == s.ledger.outstanding
      && t.ledger.pending == s.ledger.outstanding + {s.ledger.nextId}
      && t.cleanupRef == s.cleanupRef == false
      && (forall x :: x in s.ledger.outstanding ==> (IsDisconnect(t.ledger, x) <==> IsDisconnect(s.ledger, x)))
  {
    ConnectedOwns(s);
    hide Steady, LedgerInv, RejectEach, Arm;
    RejectAllFacts(s.ledger, ConnectionLost, {}, s.cleanupRef);
    var m := RejectEach(s.ledger, s.ledger.pending, ConnectionLost);
    EnrolFacts(m, DisconnectOp, now, [], s.cleanupRef);
    hide Enrol;
  }

  /** On a connection that is up everything allocated is pending and owed a callback. */
  lemma ConnectedOwns(s: Wrap)
    requires Steady(s, {}) && s.connected
    ensures LedgerInv(s.ledger, {}, s.cleanupRef) && s.ledger.pending == s.ledger.outstanding
    ensures s.ledger.outstanding <= s.ledger.operations.Keys && !s.cleanupRef
  {
    Membership(s.ledger, {}, s.cleanupRef);
    hide LedgerInv, T.TableInv, P.LinkInv;
  }

  lemma FinishLeft(s: Wrap, t: Wrap, id: OpId, script: Script)
    requires CleansUp(s, t, FiredBy(script)) && id !in s.ledger.outstanding
    requires s.ledger.pending == s.ledger.outstanding + {id}
    ensures var u := Finish(t, id);
      && u.context == None && u.cleanupRef == t.cleanupRef && u.cleanupPending == t.cleanupPending
      && u.ledger.pending == (if Disconnects(s.ledger, FiredBy(script)) then {}
                              else s.ledger.outstanding - FiredBy(script))
      && (t.timer.mode == Off ==> u.timer.mode == Off)
    ensures !Disconnects(s.ledger, FiredBy(script)) ==>
      t.cleanupRef == s.cleanupRef && !t.cleanupPending && t.timer.mode == Off
  {
    hide Retire, Disconnects;
    RetireFacts(t.ledger, id);
  }

  lemma RefusedOwners(s: Wrap, id: OpId, code: Code)
    requires Called(s, id, {}) && s.connected && Unsettled(s.ledger, id)
    ensures var t := RejectOp(s, id, code);
      t.context == s.context && forall x :: x in t.ledger.operations ==> x in t.ledger.outstanding || x == id
  {
  }

  lemma LeftoverOperations(s: Wrap, id: OpId, script: Script)
    requires Sound(s) && Routed(s) && AllSettled(s.ledger) && s.context.Some?
    requires id in s.ledger.operations && id !in s.ledger.outstanding
    requires forall x :: x in s.ledger.operations ==> x in s.ledger.outstanding || x == id
    ensures Finish(CleanupContext(s, script), id).ledger.operations.Keys == s.ledger.outstanding - FiredBy(script)
  {
    hide RunScript, Sound, Routed, Dying, AllSettled, OnlyFinishes, Retire;
    DismantleDying(s);
    var dying := Dismantle(s);
    DestroyEffect(dying, s.context.value, script);
    FiredOwners(dying, s.context.value, id, script);
    DyingLeaves(s, script);
    RetireFacts(CleanupContext(s, script).ledger, id);
    hide Destroy;
  }

  lemma FiredOwners(s: Wrap, ctx: CtxId, id: OpId, script: Script)
    requires Dying(s, ctx)
    requires id in s.ledger.operations && id !in s.ledger.outstanding
    requires forall x :: x in s.ledger.operations ==> x in s.ledger.outstanding || x == id
    ensures var m := RunScript(s, ctx, script, true).ledger;
      m.operations.Keys == m.outstanding + {id} && id !in m.outstanding
  {
    hide RunScript, LedgerInv, Sound;
    ScriptDying(s, ctx, script);
    DyingOwns(RunScript(s, ctx, script, true), ctx);
  }

  // ---- A fatal error ----------------------------------------------------------------------

  /** A fatal error clears `cleanup_context_pending_` and keeps `cleanup_ref_held_`: unless the
      dying context calls a disconnect back, a reference held before it is held after it, with
      no cleanup scheduled that would drop it. */
  lemma FatalKeepsReference(s: Wrap, script: Script)
    requires Steady(s, {}) && s.context.Some?
    ensures var t := HandleFatal(s, script);
      && t.context == None && t.ledger.pending == {} && t.ledger.operations == map[] && t.ledger.nextId > 0
      && (!Disconnects(s.ledger, FiredBy(script)) ==>
            && t.cleanupRef == s.cleanupRef && !t.cleanupPending && t.timer.mode == Off
            && t.ledger.refs == if s.cleanupRef then 1 else 0)
  {
    var t := HandleFatal(s, script);
    AliveIsOld(s, {});
    SteadyBreakable(s, {});
    FatalEffect(s, script);
    WreckedCounts(s, t);
    CondemnedEffect(s);
    CondemnedParts(s);
    FatalSplit(s, script);
    hide Steady, Breakable, HandleFatal, Condemned, Sound, AllSettled, OnlyRejects, Wrecked, CleanupContext,
      Disconnects, CleansUp, Routed;
    var s1 := Condemned(s);
    CleanupLeaves(s1, script);
    SameDisconnects(s1.ledger, s.ledger, FiredBy(script));
    DrainedParts(s1, CleanupContext(s1, script), FiredBy(script));
  }

  lemma WreckedCounts(s: Wrap, t: Wrap)
    requires Wrecked(s, t) && s.ledger.nextId > 0
    ensures t.ledger.refs == (if t.cleanupRef then 1 else 0)
    ensures t.context == None && t.ledger.pending == {} && t.ledger.operations == map[] && t.ledger.nextId > 0
  {
    NextIdKept(s.ledger, t.ledger);
  }

  lemma CondemnedParts(s: Wrap)
    requires Steady(s, {}) && s.context.Some?
    ensures var t := Condemned(s);
      && Routed(t) && t.context.Some? && t.cleanupRef == s.cleanupRef && t.ledger.outstanding == s.ledger.outstanding
      && (forall x :: x in s.ledger.outstanding ==> (IsDisconnect(t.ledger, x) <==> IsDisconnect(s.ledger, x)))
  {
    SoundMembership(s);
    hide LedgerInv, RejectEach, Defer, OnlyRejects, Sound, Routed;
    RejectAllFacts(s.ledger, ConnectionLost, {}, s.cleanupRef);
    DeferFacts(RejectAll(s, ConnectionLost).ledger, {}, s.cleanupRef);
    CondemnedRoutes(s);
    hide Steady;
  }

  lemma CondemnedRoutes(s: Wrap)
    requires Routed(s)
    ensures Routed(Condemned(s)) && Condemned(s).context == s.context
  {
    hide RejectEach, Defer;
  }

  lemma DrainedParts(s: Wrap, t: Wrap, names: set<OpId>)
    requires CleansUp(s, t, names)
    ensures !Disconnects(s.ledger, names) ==>
      var u := DrainDeferred(t);
      u.cleanupRef == s.cleanupRef && !u.cleanupPending && u.timer.mode == Off
  {
    hide Drain, Disconnects;
  }

  // ---- The destructor ---------------------------------------------------------------------

  /** The destructor of an unreferenced wrapper leaves the timer off, unless the dying context
      calls a disconnect back. */
  lemma DestructorStopsTimer(w: World, id: WrapId, script: Script)
    requires Reachable(w) && id in w.wraps && w.wraps[id].ledger.refs == 0
    ensures !w.wraps[id].scheduleFailed || !Disconnects(w.wraps[id].ledger, FiredBy(script)) ==>
      Finalize(Focus(w, id), script).timer.mode == Off
  {
    var s := Focus(w, id);
    ReachableSteady(w, id);
    CollectableIsQuiet(s);
    if !s.scheduleFailed {
      CollectionIsSafe(w, id);
      UnownedDestructor(s, script);
    } else if !Disconnects(s.ledger, FiredBy(script)) {
      hide Steady, Reachable, Sound, Routed, AllSettled, Disconnects, CleanupContext;
      if s.context.Some? {
        CleanupLeaves(s, script);
      } else {
        NoContextStops(s, script);
      }
    }
  }

  lemma NoContextStops(s: Wrap, script: Script)
    requires s.context.None? && Sound(s)
    ensures CleanupContext(s, script).timer.mode == Off
  {
    hide LedgerInv, T.TableInv, P.LinkInv, T.Clear, P.Stop, P.Reset;
  }

  /** And a disconnect called back does set the timer again, to fire on a wrapper that is gone. */
  lemma DestructorRearmsTimer(s: Wrap, op: OpId, status: int, reply: Reply)
    requires Steady(s, {}) && s.ledger.refs == 0 && s.context.Some?
    requires op in s.ledger.outstanding && IsDisconnect(s.ledger, op)
    ensures var t := Finalize(s, [Complete(op, status, reply, [])]);
      t.timer.mode == (if Arms(Stopped(s.timer), reply) then OneShot else Off)
  {
    var script := [Complete(op, status, reply, [])];
    CollectableIsQuiet(s);
    DismantleDying(s);
    var dying := Dismantle(s);
    hide Steady, Routed, Sound, AllSettled, Dying;
    OffNow(s);
    OneCallback(dying, s.context.value, op, status, reply);
    DestroyEffect(dying, s.context.value, script);
    hide RunScript, Destroy;
  }

  lemma OffNow(s: Wrap)
    requires Sound(s)
    ensures Dismantle(s).timer == Stopped(s.timer) && Stopped(s.timer).mode == Off && !Dismantle(s).cleanupPending
  {
  }

  lemma OneCallback(s: Wrap, ctx: CtxId, op: OpId, status: int, reply: Reply)
    requires Dying(s, ctx) && op in s.ledger.outstanding && IsDisconnect(s.ledger, op)
    requires s.timer.mode == Off
    ensures RunScript(s, ctx, [Complete(op, status, reply, [])], true).timer.mode
         == (if Arms(s.timer, reply) then OneShot else Off)
  {
    var act := Complete(op, status, reply, []);
    var s1 := s.(ledger := Fired(s.ledger, op));
    DyingOwns(s, ctx);
    hide OnComplete, OnDisconnectComplete, Dying;
    assert [act][1..] == [] && [act][0] == act;
    assert RunScript(s, ctx, [act], true) == RunScript(RunAct(s, ctx, act, true), ctx, [], true);
    Dispatch(s1, op, DyingStatus(s.ledger.operations, op, status), reply, []);
    EndingTimer(s1, op, DyingStatus(s.ledger.operations, op, status), reply);
  }

  lemma EndingTimer(s: Wrap, id: OpId, status: int, reply: Reply)
    requires id in s.ledger.operations && s.timer.mode == Off
    ensures OnDisconnectComplete(s, id, status, reply).timer.mode == (if Arms(s.timer, reply) then OneShot else Off)
  {
    hide Reject, Settle, Defer, Retire, T.Clear, P.Reset, P.Stop, AddRefs;
  }

  // ---- Collection -------------------------------------------------------------------------

  ghost predicate Dead(s: Wrap) {
    s.context.None? && s.ledger.nextId > 0
  }

  /** Dead, and held by references that nobody will drop. */
  ghost predicate Stuck(s: Wrap) {
    Dead(s) && (s.ledger.pending != {} || (s.cleanupRef && !s.cleanupPending))
  }

  lemma StuckIsHeld(s: Wrap)
    requires Steady(s, {}) && Stuck(s)
    ensures s.ledger.refs > 0 && !s.cleanupPending
  {
    if s.ledger.pending != {} {
      assert |s.ledger.pending| > 0;
    }
  }

  /** No step of a stuck connection frees it. */
  lemma StuckStep(s: Wrap, e: Event)
    requires Steady(s, {}) && Stuck(s)
    ensures Stuck(Step(s, e))
  {
    StuckIsHeld(s);
    DeadIsUnreachable(s);
    hide Steady, Connect, Disconnect, Request, Readdir, Closedir, OnServiceTimer, OnPollEvent, FdChange, EventsChange,
      Finalize, P.Free;
    if Asks(e) {
      NotReadyRefuses(s, e);
    } else if e.DoDisconnect? {
      DeadDisconnects(s, e.now, e.reply, e.rc, e.script);
    } else if e.TimerFires? {
      DeadTicks(s, e.script, e.rc, e.teardown);
    }
  }

  lemma DeadDisconnects(s: Wrap, now: nat, reply: Reply, rc: int, script: Script)
    requires s.context.None?
    ensures var t := Disconnect(s, now, reply, rc, script);
      t == s.(ledger := t.ledger) && t.ledger.pending == s.ledger.pending && t.ledger.nextId == s.ledger.nextId + 1
  {
    hide Stillborn, HandleFatal, CleanupContext;
    StillbornKeepsLists(s.ledger, now);
  }

  lemma DeadTicks(s: Wrap, script: Script, rc: int, teardown: Script)
    requires s.context.None? && !s.cleanupPending
    ensures var t := OnServiceTimer(s, script, rc, teardown);
      t == s.(timer := t.timer)
  {
    hide HandleFatal, CleanupContext, RunScript;
  }

  lemma StillbornKeepsLists(m: Ledger, now: nat)
    ensures var t := Stillborn(m, DisconnectOp, now, [], Resolved(Undefined));
      t.pending == m.pending && t.nextId == m.nextId + 1
  {
  }

  lemma DeadIsUnreachable(s: Wrap)
    requires Steady(s, {}) && s.context.None?
    ensures s.link.poll.None? && !s.connected && forall c :: !RoutesHere(s, c)
  {
  }

  lemma {:induction false} StuckRun(w: World, id: WrapId, later: seq<Action>)
    requires Valid(w) && id in w.wraps && Stuck(w.wraps[id])
    ensures id in Run(w, later).wraps && Stuck(Run(w, later).wraps[id]) && Run(w, later).wraps[id].ledger.refs > 0
    decreases later
  {
    hide Steady, Step, Stuck;
    if later == [] {
      StuckFocus(w, id);
      StuckIsHeld(Focus(w, id));
    } else {
      var n := Next(w, later[0]);
      NextValid(w, later[0]);
      StuckFocus(w, id);
      if later[0].Enter? && later[0].self == id {
        StuckStep(Focus(w, id), later[0].event);
      }
      NextFocus(w, id, later[0]);
      StuckRun(n, id, later[1..]);
    }
  }

  /** Only its own steps change a connection's record. */
  lemma NextFocus(w: World, id: WrapId, a: Action)
    requires id in w.wraps
    ensures var n := Next(w, a);
      id in n.wraps
      && n.wraps[id] == if a.Enter? && a.self == id then Step(Focus(w, id), a.event) else w.wraps[id]
  {
    hide Step;
  }

  lemma RunOne(w: World, id: WrapId, e: Event)
    requires id in w.wraps
    ensures var n := Run(w, [Enter(id, e)]);
      n == Next(w, Enter(id, e)) && id in n.wraps && n.wraps[id] == Step(Focus(w, id), e)
  {
    hide Step;
    var later := [Enter(id, e)];
    assert later[1..] == [] && Run(w, later) == Run(Next(w, later[0]), later[1..]);
    NextFocus(w, id, later[0]);
    hide Next;
  }

  lemma StuckFocus(w: World, id: WrapId)
    requires id in w.wraps
    ensures Stuck(w.wraps[id]) <==> Stuck(Focus(w, id))
  {
  }

  /** Some run from here takes the last reference off. */
  ghost predicate Collectable(w: World, id: WrapId) {
    exists later :: id in Run(w, later).wraps && Run(w, later).wraps[id].ledger.refs == 0
  }

  /** A dead wrapper can ever be collected if and only if nothing is pending on it and a cleanup
      reference it holds comes with a cleanup that is scheduled. */
  lemma DeadIsCollectable(w: World, id: WrapId)
    requires Reachable(w) && id in w.wraps && Dead(w.wraps[id])
    ensures var s := w.wraps[id];
      Collectable(w, id) <==> s.ledger.pending == {} && (s.cleanupRef ==> s.cleanupPending)
  {
    hide Steady, Run, Step;
    ReachableSteady(w, id);
    var s := w.wraps[id];
    if s.ledger.pending == {} && (s.cleanupRef ==> s.cleanupPending) {
      DeadIsReleased(w, id);
    } else {
      forall later ensures id in Run(w, later).wraps && Run(w, later).wraps[id].ledger.refs > 0 {
        StuckRun(w, id, later);
      }
    }
  }

  lemma DeadIsReleased(w: World, id: WrapId)
    requires Reachable(w) && id in w.wraps && Dead(w.wraps[id])
    requires w.wraps[id].ledger.pending == {} && (w.wraps[id].cleanupRef ==> w.wraps[id].cleanupPending)
    ensures Collectable(w, id)
  {
    hide Steady, OnServiceTimer, Next, Reachable, Dead, Possible;
    ReachableSteady(w, id);
    var s := Focus(w, id);
    if s.cleanupPending {
      var e := TimerFires([], 0, []);
      ScheduledFires(s);
      CleanupRuns(s, [], 0, []);
      ReleasedCounts(s, OnServiceTimer(s, [], 0, []));
      RunOne(w, id, e);
      hide Run;
      assert Run(w, [Enter(id, e)]).wraps[id].ledger.refs == 0;
    } else {
      UnheldCounts(s);
      assert Run(w, []) == w;
    }
  }

  lemma ScheduledFires(s: Wrap)
    requires Steady(s, {}) && s.cleanupPending
    ensures Possible(s, TimerFires([], 0, []))
  {
  }

  lemma UnheldCounts(s: Wrap)
    requires Steady(s, {}) && s.ledger.pending == {} && !s.cleanupRef
    ensures s.ledger.refs == 0
  {
  }

  lemma ReleasedCounts(s: Wrap, t: Wrap)
    requires Kept(s, t) && t.ledger.operations == map[] && !t.cleanupRef
    ensures t.ledger.refs == 0
  {
    SoundMembership(t);
    Membership(t.ledger, {}, t.cleanupRef);
    hide Evolves;
    assert t.ledger.pending == {};
  }

  /** A wrapper whose disconnect was refused, with no other in flight, can ever be collected if and
      only if the dying context calls back everything that was outstanding. */
  lemma RefusedDisconnectCollectable(w: World, id: WrapId, now: nat, reply: Reply, rc: int, script: Script)
    requires Reachable(w) && id in w.wraps && w.wraps[id].connected
    requires Arms(w.wraps[id].timer, reply) && rc < 0
    requires !Disconnects(w.wraps[id].ledger, FiredBy(script))
    ensures Collectable(Next(w, Enter(id, DoDisconnect(now, reply, rc, script))), id)
       <==> w.wraps[id].ledger.outstanding <= FiredBy(script)
  {
    hide Steady, Reachable, Disconnect, Collectable, Disconnects, Next, Run;
    var s := Focus(w, id);
    var a := Enter(id, DoDisconnect(now, reply, rc, script));
    var n := Next(w, a);
    ReachableSteady(w, id);
    ReachableNext(w, a);
    RefusedDisconnectLeaves(s, now, reply, rc, script);
    NextFocus(w, id, a);
    assert n.wraps[id] == Disconnect(s, now, reply, rc, script);
    NextOld(w, id, now, reply, rc, script);
    DeadIsCollectable(n, id);
    var left := s.ledger.outstanding - FiredBy(script);
    assert left == {} <==> s.ledger.outstanding <= FiredBy(script);
  }

  lemma NextOld(w: World, id: WrapId, now: nat, reply: Reply, rc: int, script: Script)
    requires Reachable(w) && id in w.wraps && w.wraps[id].connected
    ensures Disconnect(Focus(w, id), now, reply, rc, script).ledger.nextId > 0
  {
    ReachableSteady(w, id);
    AliveIsOld(Focus(w, id), {});
    DisconnectKeeps(Focus(w, id), now, reply, rc, script);
    hide Steady, Disconnect;
    EvolvesAge(Focus(w, id), Disconnect(Focus(w, id), now, reply, rc, script));
  }

  lemma ReachableNext(w: World, a: Action)
    requires Reachable(w)
    ensures Reachable(Next(w, a))
  {
    hide Next;
    var actions :| w == Run(EMPTY_WORLD, actions);
    RunTwice(EMPTY_WORLD, actions, [a]);
    assert [a][1..] == [];
    assert Run(w, [a]) == Next(w, a);
    assert Next(w, a) == Run(EMPTY_WORLD, actions + [a]);
  }
}
