/**
 The native handles that a disconnect leaves behind: from the moment Disconnect is called no handle
 can be closed any more, and those still in a table are dropped.  libsmb2 frees a handle when it is
 closed, or when its open fails, and smb2_destroy_context does not look for them
 (vendor/libsmb2/lib/libsmb2.c:204-217, 1157-1161, vendor/libsmb2/lib/init.c:307-381).
 */
module Handles {
  import opened Options
  import opened Operations
  import opened Lifecycle
  import opened Invariants
  import opened Steps
  import opened World
  import opened Theorems
  import opened Leftovers
  import T = HandleTable
  import P = PollLink

  /** Neither table gains a handle or lets one out, except by dropping it. */
  ghost predicate Sheds(s: Wrap, t: Wrap) {
    T.Sheds(s.files, t.files) && T.Sheds(s.dirs, t.dirs)
  }

  predicate SameTables(s: Wrap, t: Wrap) {
    t.files == s.files && t.dirs == s.dirs
  }

  predicate Cleared(s: Wrap, t: Wrap) {
    t.files == T.Clear(s.files) && t.dirs == T.Clear(s.dirs)
  }

  lemma ShedsTrans(a: Wrap, b: Wrap, c: Wrap)
    requires Sheds(a, b) && Sheds(b, c)
    ensures Sheds(a, c)
  {
    T.ShedsTrans(a.files, b.files, c.files);
    T.ShedsTrans(a.dirs, b.dirs, c.dirs);
  }

  lemma ShedsSimply(s: Wrap, t: Wrap)
    requires SameTables(s, t) || Cleared(s, t)
    ensures Sheds(s, t)
  {
    hide T.Sheds, T.Clear;
    T.ClearSheds(s.files);
    T.ClearSheds(s.dirs);
    SameTable(s.files);
    SameTable(s.dirs);
  }

  lemma SameTable(t: T.Table)
    ensures T.Sheds(t, t)
  {
  }

  // ---- Transitions that leave the tables alone --------------------------------------------

  lemma SettlingKeepsTables(s: Wrap, id: OpId, code: Code, value: Value)
    ensures SameTables(s, Finish(s, id)) && SameTables(s, RejectOp(s, id, code))
    ensures SameTables(s, ResolveOp(s, id, value))
    ensures SameTables(s, RejectAll(s, code)) && SameTables(s, DrainDeferred(s)) && SameTables(s, Owe(s, id))
    ensures SameTables(s, Touch(s))
  {
    hide Retire, Reject, Settle, RejectEach, Drain, Submitted;
  }

  lemma DisconnectClears(s: Wrap, id: OpId, status: int, reply: Reply)
    requires id in s.ledger.operations
    ensures Cleared(s, OnDisconnectComplete(s, id, status, reply))
  {
    hide Retire, Reject, Settle, Defer, AddRefs, T.Clear, P.Reset, P.Stop;
  }

  lemma ReportKeepsTables(s: Wrap, ctx: CtxId, act: Act, dying: bool)
    requires !act.Complete?
    ensures SameTables(s, RunAct(s, ctx, act, dying))
  {
    hide RoutesHere, Misroute, P.Start, P.Stop, P.Apply, P.Ask;
    MisroutesOnly(s, ctx);
  }

  lemma MisroutesOnly(s: Wrap, ctx: CtxId)
    ensures Misroute(s, ctx) == s.(faults := Misroute(s, ctx).faults)
  {
  }

  // ---- A dying context --------------------------------------------------------------------

  lemma ActShedsDying(s: Wrap, ctx: CtxId, act: Act)
    requires Dying(s, ctx)
    ensures Sheds(s, RunAct(s, ctx, act, true))
  {
    Membership(s.ledger, {}, s.cleanupRef);
    hide LedgerInv, T.TableInv, P.LinkInv, Finish, OnDisconnectComplete, OnComplete, Sheds, T.Clear;
    var t := RunAct(s, ctx, act, true);
    if !act.Complete? {
      ReportKeepsTables(s, ctx, act, true);
    } else if act.op in s.ledger.outstanding {
      var s1 := s.(ledger := Fired(s.ledger, act.op));
      var status := DyingStatus(s.ledger.operations, act.op, act.status);
      if s.ledger.operations[act.op].kind.DisconnectOp? {
        DisconnectClears(s1, act.op, status, act.reply);
        Dispatched(s1, act.op, status, act.reply, act.nested);
      } else {
        SettledCompletion(s1, act.op, status, act.reply, act.nested);
        SettlingKeepsTables(s1, act.op, ConnectionLost, Undefined);
      }
    }
    ShedsSimply(s, t);
  }

  lemma Dispatched(s: Wrap, id: OpId, status: int, reply: Reply, nested: Script)
    requires id in s.ledger.operations && s.ledger.operations[id].kind.DisconnectOp?
    ensures OnComplete(s, id, status, reply, nested) == OnDisconnectComplete(s, id, status, reply)
  {
    hide OnDisconnectComplete;
  }

  lemma {:induction false} ScriptShedsDying(s: Wrap, ctx: CtxId, script: Script)
    requires Dying(s, ctx)
    ensures Sheds(s, RunScript(s, ctx, script, true))
    decreases script
  {
    hide Dying, Sheds, RunAct;
    if script == [] {
      ShedsSimply(s, s);
    } else {
      var s1 := RunAct(s, ctx, script[0], true);
      ActDying(s, ctx, script[0]);
      ActShedsDying(s, ctx, script[0]);
      ScriptShedsDying(s1, ctx, script[1..]);
      ShedsTrans(s, s1, RunScript(s1, ctx, script[1..], true));
    }
  }

  lemma CleanupSheds(s: Wrap, script: Script)
    requires Sound(s) && Routed(s) && AllSettled(s.ledger)
    ensures Sheds(s, CleanupContext(s, script))
  {
    DismantleDying(s);
    var s1, t := Dismantle(s), CleanupContext(s, script);
    DismantleClears(s);
    hide Sound, Routed, AllSettled, Dying, Sheds, Cleared, RunScript, CleanupContext, Dismantle;
    ShedsSimply(s, s1);
    if s.context.Some? {
      ScriptShedsDying(s1, s.context.value, script);
      CleanupKeepsTables(s, script);
      ShedsSimply(RunScript(s1, s.context.value, script, true), t);
      ShedsTrans(s1, RunScript(s1, s.context.value, script, true), t);
    } else {
      ClosesDead(s, script);
      ShedsSimply(s1, t);
    }
    ShedsTrans(s, s1, t);
  }

  lemma DismantleClears(s: Wrap)
    ensures Cleared(s, Dismantle(s))
  {
    hide T.Clear, P.Stop;
  }

  lemma CleanupKeepsTables(s: Wrap, script: Script)
    requires s.context.Some?
    ensures SameTables(RunScript(Marked(Dismantle(s), s.context.value), s.context.value, script, true),
                       CleanupContext(s, script))
    ensures Dying(Dismantle(s), s.context.value) ==> Marked(Dismantle(s), s.context.value) == Dismantle(s)
  {
    hide RunScript, Dying, Marked, Quiet, T.Clear, P.Stop, P.Reset, Silence;
    if Dying(Dismantle(s), s.context.value) {
      MarkedClean(Dismantle(s), s.context.value);
    }
  }

  lemma ClosesDead(s: Wrap, script: Script)
    requires s.context.None?
    ensures SameTables(Dismantle(s), CleanupContext(s, script))
  {
    hide T.Clear, P.Stop, P.Reset;
  }

  lemma FatalSheds(s: Wrap, script: Script)
    requires Breakable(s)
    ensures Sheds(s, HandleFatal(s, script))
  {
    hide HandleFatal, Sheds, CleanupContext, Sound, Routed, AllSettled, OnlyRejects;
    FatalSplit(s, script);
    CondemnedEffect(s);
    CondemnedRouted(s);
    var s1 := Condemned(s);
    hide Condemned, Breakable;
    ShedsSimply(s, s1);
    CleanupSheds(s1, script);
    var s2 := CleanupContext(s1, script);
    ShedsTrans(s, s1, s2);
    SettlingKeepsTables(s2, 0, ConnectionLost, Undefined);
    ShedsSimply(s2, DrainDeferred(s2));
    ShedsTrans(s, s2, DrainDeferred(s2));
  }

  lemma CondemnedRouted(s: Wrap)
    requires Breakable(s)
    ensures Routed(Condemned(s)) && SameTables(s, Condemned(s))
  {
    hide RejectEach, Defer, Sound;
  }

  // ---- A live context ---------------------------------------------------------------------

  /** From the moment a disconnect has begun only a disconnect can be open. */
  lemma OnlyDisconnectsOpen(s: Wrap, id: OpId, busy: set<OpId>)
    requires Steady(s, busy) && id in s.ledger.operations && !s.ledger.operations[id].settled
    requires Rank(s) >= DISCONNECTING
    ensures s.ledger.operations[id].kind.DisconnectOp?
  {
    Membership(s.ledger, {}, s.cleanupRef);
    hide LedgerInv, T.TableInv, P.LinkInv;
  }

  lemma {:induction false} CompleteSheds(s: Wrap, ctx: CtxId, id: OpId, status: int, reply: Reply,
                                         nested: Script, busy: set<OpId>)
    requires Called(s, id, busy) && Serves(s, ctx) && s.ledger.outstanding !! busy && Rank(s) >= DISCONNECTING
    ensures Sheds(s, OnComplete(s, id, status, reply, nested))
    decreases nested, 4
  {
    CalledAlive(s, id, busy);
    var op := s.ledger.operations[id];
    if op.kind.DisconnectOp? {
      DisconnectClears(s, id, status, reply);
      Dispatched(s, id, status, reply, nested);
      ShedsSimply(s, OnComplete(s, id, status, reply, nested));
    } else {
      assert op.settled by {
        if !op.settled {
          OnlyDisconnectsOpen(s, id, busy + {id});
        }
      }
      hide Called, Sheds, OnComplete, Serves, Rank;
      if Delivers(op.kind) && status == 0 {
        BounceSheds(s, ctx, id, reply, nested, busy);
      } else {
        SettledCompletion(s, id, status, reply, nested);
        SettlingKeepsTables(s, id, ConnectionLost, Undefined);
        ShedsSimply(s, Finish(s, id));
      }
    }
  }

  lemma {:induction false} BounceSheds(s: Wrap, ctx: CtxId, id: OpId, reply: Reply, nested: Script, busy: set<OpId>)
    requires Called(s, id, busy) && s.ledger.outstanding !! busy && Rank(s) >= DISCONNECTING
    requires s.ledger.operations[id].settled && Delivers(s.ledger.operations[id].kind)
    ensures Sheds(s, OnComplete(s, id, 0, reply, nested))
    decreases nested, 3
  {
    CalledTables(s, id, busy);
    hide Steady, Evolves, Sheds, OnComplete, RunScript, Touch, T.Bounce, Finish, RejectOp, Rank;
    var t := OnComplete(s, id, 0, reply, nested);
    if s.ledger.operations[id].kind.OpenOp? {
      var s1 := Touch(s.(files := T.Bounce(s.files)));
      TouchSheds(s, s.(files := T.Bounce(s.files)));
      BouncedServing(s, id, busy);
      EvolvesRank(s, s1);
      ScriptSheds(s1, s.context.value, nested, busy + {id});
      var s2 := RunScript(s1, s.context.value, nested, false);
      ShedsTrans(s, s1, s2);
      EndSheds(s, s2, id);
      BouncedFile(s, id, reply, nested);
    } else {
      TouchSheds(s, s.(dirs := T.Bounce(s.dirs)));
      EndSheds(s, Touch(s.(dirs := T.Bounce(s.dirs))), id);
      BouncedDir(s, id, reply, nested);
    }
  }

  lemma CalledTables(s: Wrap, id: OpId, busy: set<OpId>)
    requires Called(s, id, busy)
    ensures s.context.Some? && T.Sheds(s.files, T.Bounce(s.files)) && T.Sheds(s.dirs, T.Bounce(s.dirs))
  {
    TablesSound(s, busy + {id});
    T.BounceSheds(s.files);
    T.BounceSheds(s.dirs);
    hide Steady, T.TableInv, T.Sheds, T.Bounce;
  }

  lemma EvolvesRank(s: Wrap, t: Wrap)
    requires Evolves(s, t)
    ensures Rank(s) <= Rank(t)
  {
  }

  lemma TouchSheds(s: Wrap, t: Wrap)
    requires T.Sheds(s.files, t.files) || t.files == s.files
    requires T.Sheds(s.dirs, t.dirs) || t.dirs == s.dirs
    ensures Sheds(s, Touch(t))
  {
    hide T.Sheds;
    SameTable(s.files);
    SameTable(s.dirs);
  }

  lemma EndSheds(s: Wrap, t: Wrap, id: OpId)
    requires Sheds(s, t)
    ensures Sheds(s, Finish(RejectOp(t, id, ConnectionLost), id))
  {
    hide Sheds, Finish, RejectOp;
    var t1 := RejectOp(t, id, ConnectionLost);
    SettlingKeepsTables(t, id, ConnectionLost, Undefined);
    SettlingKeepsTables(t1, id, ConnectionLost, Undefined);
    ShedsSimply(t, Finish(t1, id));
    ShedsTrans(s, t, Finish(t1, id));
  }

  lemma BouncedFile(s: Wrap, id: OpId, reply: Reply, nested: Script)
    requires id in s.ledger.operations && s.ledger.operations[id].settled && s.context.Some?
    requires s.ledger.operations[id].kind.OpenOp?
    ensures OnComplete(s, id, 0, reply, nested)
         == Finish(RejectOp(RunScript(Touch(s.(files := T.Bounce(s.files))), s.context.value, nested, false),
                            id, ConnectionLost), id)
  {
    hide Finish, RejectOp, RunScript, Touch, T.Bounce;
  }

  lemma BouncedDir(s: Wrap, id: OpId, reply: Reply, nested: Script)
    requires id in s.ledger.operations && s.ledger.operations[id].settled && s.context.Some?
    requires s.ledger.operations[id].kind.OpendirOp?
    ensures OnComplete(s, id, 0, reply, nested)
         == Finish(RejectOp(Touch(s.(dirs := T.Bounce(s.dirs))), id, ConnectionLost), id)
  {
    hide Finish, RejectOp, Touch, T.Bounce;
  }

  lemma {:induction false} ScriptSheds(s: Wrap, ctx: CtxId, script: Script, busy: set<OpId>)
    requires Serving(s, ctx, busy) && Rank(s) >= DISCONNECTING
    ensures Sheds(s, RunScript(s, ctx, script, false))
    decreases script, 0
  {
    hide Serving, Evolves, Spares, RunAct, Sheds, Rank;
    if script == [] {
      ShedsSimply(s, s);
    } else {
      var s1 := RunAct(s, ctx, script[0], false);
      ActServed(s, ctx, script[0], busy);
      ActSheds(s, ctx, script[0], busy);
      EvolvesRank(s, s1);
      ScriptSheds(s1, ctx, script[1..], busy);
      ShedsTrans(s, s1, RunScript(s1, ctx, script[1..], false));
    }
  }

  lemma {:induction false} ActSheds(s: Wrap, ctx: CtxId, act: Act, busy: set<OpId>)
    requires Serving(s, ctx, busy) && Rank(s) >= DISCONNECTING
    ensures Sheds(s, RunAct(s, ctx, act, false))
    decreases act
  {
    hide Serving, Called, Evolves, Sheds, OnComplete, Rank;
    if !act.Complete? {
      ReportKeepsTables(s, ctx, act, false);
      ShedsSimply(s, RunAct(s, ctx, act, false));
    } else if act.op in s.ledger.outstanding {
      FiredCalled(s, ctx, act.op, busy);
      var s1 := s.(ledger := Fired(s.ledger, act.op));
      EvolvesRank(s, s1);
      CompleteSheds(s1, ctx, act.op, act.status, act.reply, act.nested, busy);
      ShedsSimply(s, s1);
      ShedsTrans(s, s1, RunAct(s, ctx, act, false));
    } else {
      ShedsSimply(s, s);
    }
  }

  // ---- Every step -------------------------------------------------------------------------

  lemma ServeSheds(s: Wrap, script: Script)
    requires Steady(s, {}) && s.context.Some? && Rank(s) >= DISCONNECTING
    ensures Sheds(s, RunScript(Touch(s), s.context.value, script, false))
  {
    AliveIsOld(s, {});
    hide Steady, Sheds, Touch;
    ScriptSheds(s, s.context.value, script, {});
  }

  lemma ServeOrFatalSheds(s: Wrap, script: Script, teardown: Script)
    requires Steady(s, {}) && s.context.Some? && Rank(s) >= DISCONNECTING
    ensures Sheds(s, HandleFatal(RunScript(Touch(s), s.context.value, script, false), teardown))
  {
    AliveIsOld(s, {});
    ServeSheds(s, script);
    ServiceKeeps(s, script);
    var s1 := RunScript(Touch(s), s.context.value, script, false);
    hide Steady, RunScript, HandleFatal, Sheds, Touch, Rank;
    EvolvesAge(s, s1);
    hide Evolves;
    SteadyBreakable(s1, {});
    FatalSheds(s1, teardown);
    ShedsTrans(s, s1, HandleFatal(s1, teardown));
  }

  /** A tick on a live context. */
  lemma TickSheds(s: Wrap, script: Script, rc: int, teardown: Script)
    requires Steady(s, {}) && !s.cleanupPending && !s.timer.mode.OneShot? && Rank(s) >= DISCONNECTING
    ensures Sheds(s, OnServiceTimer(s, script, rc, teardown))
  {
    hide Steady, HandleFatal, RunScript, Touch, Rank, Sheds;
    if s.context.None? {
      ShedsSimply(s, s);
    } else if rc < 0 {
      ServeOrFatalSheds(s, script, teardown);
    } else {
      ServeSheds(s, script);
    }
  }

  lemma FinalizeSheds(s: Wrap, script: Script)
    requires Sound(s) && Routed(s) && AllSettled(s.ledger)
    ensures Sheds(s, Finalize(s, script))
  {
    hide Sound, Routed, AllSettled, Sheds, CleanupContext;
    CleanupSheds(s, script);
    var t := CleanupContext(s, script);
    SettlingKeepsTables(t, 0, ConnectionLost, Undefined);
    ShedsSimply(t, DrainDeferred(t));
    ShedsTrans(s, t, DrainDeferred(t));
  }

  lemma TimerSheds(s: Wrap, script: Script, rc: int, teardown: Script)
    requires Steady(s, {}) && Rank(s) >= DISCONNECTING
    ensures Sheds(s, OnServiceTimer(s, script, rc, teardown))
  {
    hide Steady, OnServiceTimer, Finalize, Sheds, Kept, Evolves, Sound, Routed, AllSettled;
    if s.cleanupPending {
      AwaitingCleanup(s);
      TimerSplit(s, script, rc, teardown);
      FinalizeSheds(Expired(s), script);
      ShedsSimply(s, Expired(s));
      var t := Finalize(Expired(s), script);
      ShedsTrans(s, Expired(s), t);
      ShedsSimply(t, Released(t));
      ShedsTrans(s, t, Released(t));
    } else if s.timer.mode.OneShot? {
      var s1 := s.(timer := s.timer.(mode := Off));
      ExpiredSteady(s);
      KeptParts(s, s1);
      EvolvesRank(s, s1);
      ShedsSimply(s, s1);
      TickSheds(s1, script, rc, teardown);
      ExpiredTicks(s, script, rc, teardown);
      ShedsTrans(s, s1, OnServiceTimer(s1, script, rc, teardown));
    } else {
      TickSheds(s, script, rc, teardown);
    }
  }

  lemma ExpiredTicks(s: Wrap, script: Script, rc: int, teardown: Script)
    requires s.timer.mode.OneShot?
    ensures OnServiceTimer(s, script, rc, teardown)
         == OnServiceTimer(s.(timer := s.timer.(mode := Off)), script, rc, teardown)
  {
    hide HandleFatal, RunScript, Touch, CleanupContext, DrainDeferred;
  }

  /** A libuv failure while the poll is being set up. */
  lemma PollFatalSheds(s: Wrap, link: P.Link, teardown: Script)
    requires Steady(s, {}) && s.context.Some? && P.LinkInv(P.Stop(link))
    ensures Sheds(s, HandleFatal(s.(link := link), teardown))
  {
    AliveIsOld(s, {});
    P.StopTwice(link);
    var s1 := s.(link := P.Stop(link));
    LinkKeeps(s, P.Stop(link));
    SteadyBreakable(s1, {});
    hide Steady, Evolves, HandleFatal, Sheds, Breakable;
    FatalSheds(s1, teardown);
    FatalStopsPoll(s.(link := link), teardown);
    ShedsSimply(s, s1);
    ShedsTrans(s, s1, HandleFatal(s1, teardown));
  }

  lemma ApplySheds(s: Wrap, link: P.Link, reply: Reply, teardown: Script)
    requires Steady(s, {}) && s.context.Some? && P.LinkInv(P.Stop(link))
    ensures Sheds(s, ApplyPollEvents(s.(link := link), reply, teardown))
  {
    hide Steady, HandleFatal, P.Apply, P.LinkInv, P.Stop, Sheds;
    PollFatalSheds(s, link, teardown);
    ShedsSimply(s, s.(link := P.Apply(link)));
  }

  lemma StartPollSheds(s: Wrap, fd: int, reply: Reply, teardown: Script)
    requires Steady(s, {}) && s.context.Some?
    ensures Sheds(s, StartPoll(s, fd, reply, teardown))
  {
    assert P.LinkInv(s.link);
    hide Steady, Sheds, HandleFatal, ApplyPollEvents, P.LinkInv, P.Stop, P.Attach, P.AttachFailed, P.Apply, P.WatchesFd;
    P.StartSteps(s.link, fd);
    var stopped := P.Stop(s.link);
    if P.WatchesFd(s.link, fd) {
      ShedsSimply(s, s);
    } else if reply.NoLoop? {
      PollFatalSheds(s, stopped, teardown);
    } else if reply.InitFails? {
      PollFatalSheds(s, P.AttachFailed(stopped), teardown);
    } else {
      ApplySheds(s, P.Attach(stopped, fd), reply, teardown);
    }
  }

  lemma FdChangeSheds(s: Wrap, ctx: CtxId, fd: int, add: bool, reply: Reply, teardown: Script)
    requires Steady(s, {}) && RoutesHere(s, ctx)
    ensures Sheds(s, FdChange(s, ctx, fd, add, reply, teardown))
  {
    RoutedAlive(s, ctx);
    hide Steady, StartPoll, Sheds, P.Stop, RoutesHere;
    if add {
      StartPollSheds(s, fd, reply, teardown);
    } else {
      ShedsSimply(s, s.(link := P.Stop(s.link)));
    }
  }

  lemma RoutedAlive(s: Wrap, ctx: CtxId)
    requires Steady(s, {}) && RoutesHere(s, ctx)
    ensures s.context.Some?
  {
  }

  lemma EventsChangeSheds(s: Wrap, ctx: CtxId, mask: int, reply: Reply, teardown: Script)
    requires Steady(s, {}) && RoutesHere(s, ctx)
    ensures Sheds(s, EventsChange(s, ctx, mask, reply, teardown))
  {
    assert s.context.Some? && P.LinkInv(s.link);
    hide Steady, ApplyPollEvents, Sheds;
    P.StopAskKeeps(s.link, mask);
    ApplySheds(s, P.Ask(s.link, mask), reply, teardown);
  }

  /** Re-applying the mask after a service call; the context may have died in it. */
  lemma ReapplySheds(s: Wrap, reply: Reply, teardown: Script)
    requires Steady(s, {})
    ensures Sheds(s, ApplyPollEvents(s, reply, teardown))
  {
    assert P.LinkInv(s.link) && (s.context.None? ==> s.link.poll.None?);
    P.StopKeeps(s.link);
    hide Steady, HandleFatal, P.Apply, Sheds, P.LinkInv;
    assert s.(link := s.link) == s;
    if s.context.Some? {
      ApplySheds(s, s.link, reply, teardown);
    } else {
      ShedsSimply(s, s.(link := P.Apply(s.link)));
    }
  }

  lemma PollEventSheds(s: Wrap, status: int, readable: bool, writable: bool,
                       script: Script, rc: int, reply: Reply, teardown: Script)
    requires Steady(s, {}) && Rank(s) >= DISCONNECTING
    ensures Sheds(s, OnPollEvent(s, status, readable, writable, script, rc, reply, teardown))
  {
    hide Steady, HandleFatal, RunScript, ApplyPollEvents, Touch, Rank, Sheds, Kept, Breakable;
    if s.context.None? {
      ShedsSimply(s, s);
    } else if status < 0 {
      AliveIsOld(s, {});
      SteadyBreakable(s, {});
      FatalSheds(s, teardown);
    } else if !readable && !writable {
      ShedsSimply(s, s);
    } else if rc < 0 {
      ServeOrFatalSheds(s, script, teardown);
    } else {
      ServeThenApplySheds(s, script, reply, teardown);
    }
  }

  lemma ServeThenApplySheds(s: Wrap, script: Script, reply: Reply, teardown: Script)
    requires Steady(s, {}) && s.context.Some? && Rank(s) >= DISCONNECTING
    ensures Sheds(s, ApplyPollEvents(RunScript(Touch(s), s.context.value, script, false), reply, teardown))
  {
    hide Steady, RunScript, ApplyPollEvents, Touch, Rank, Sheds, Kept, Evolves;
    ServeSheds(s, script);
    ServiceKeeps(s, script);
    var s1 := RunScript(Touch(s), s.context.value, script, false);
    KeptParts(s, s1);
    ReapplySheds(s1, reply, teardown);
    ShedsTrans(s, s1, ApplyPollEvents(s1, reply, teardown));
  }

  /** A disconnect, also the one that begins it all. */
  lemma DisconnectSheds(s: Wrap, now: nat, reply: Reply, rc: int, script: Script)
    requires Steady(s, {})
    ensures Sheds(s, Disconnect(s, now, reply, rc, script))
  {
    assert s.connected ==> s.context.Some?;
    hide Steady, Disconnect, Sheds, Breakable, Sound, Routed, AllSettled, Evolves, Finish, RejectOp, CleanupContext,
      HandleFatal, RejectAll, Enlisted, OnlyRejects, Touch;
    var t := Disconnect(s, now, reply, rc, script);
    if !s.connected {
      AtOnce(s, now, reply, rc, script);
      ShedsSimply(s, t);
    } else {
      var id := s.ledger.nextId;
      var s2 := Leaving(s, now, reply);
      LeavingKeepsTables(s, now, reply);
      DisconnectCases(s, now, reply, rc, script);
      ShedsSimply(s, s2);
      if !Arms(s.timer, reply) {
        AllRejected(s);
        EnlistedEvolves(RejectAll(s.(disconnecting := true), ConnectionLost), DisconnectOp, now, [], reply);
        FatalSheds(s2, script);
        ShedsTrans(s, s2, t);
      } else if rc < 0 {
        RefusedCall(s, now, reply, rc, script);
        RefusedState(s, now, reply, rc);
        var s3 := RejectOp(s2, id, Classified(rc));
        SettlingKeepsTables(s2, id, Classified(rc), Undefined);
        ShedsSimply(s, s3);
        CleanupSheds(s3, script);
        ShedsTrans(s, s3, CleanupContext(s3, script));
        SettlingKeepsTables(CleanupContext(s3, script), id, Classified(rc), Undefined);
        ShedsSimply(CleanupContext(s3, script), t);
        ShedsTrans(s, CleanupContext(s3, script), t);
      } else {
        SettlingKeepsTables(s2, id, Classified(rc), Undefined);
        SettlingKeepsTables(Touch(s2), id, Classified(rc), Undefined);
        ShedsSimply(s, t);
      }
    }
  }

  lemma AtOnce(s: Wrap, now: nat, reply: Reply, rc: int, script: Script)
    requires !s.connected
    ensures SameTables(s, Disconnect(s, now, reply, rc, script))
  {
    hide HandleFatal, CleanupContext, Finish, RejectOp, Touch, Owe, Enlisted, RejectAll, Stillborn;
  }

  lemma LeavingKeepsTables(s: Wrap, now: nat, reply: Reply)
    ensures SameTables(s, Leaving(s, now, reply))
    ensures Leaving(s, now, reply)
         == Enlisted(RejectAll(s.(disconnecting := true), ConnectionLost), DisconnectOp, now, [], reply)
  {
    hide RejectEach, Enrol, Arm;
  }

  lemma StepSheds(s: Wrap, e: Event)
    requires Steady(s, {}) && Rank(s) >= DISCONNECTING
    ensures Sheds(s, Step(s, e))
  {
    assert s.ledger.nextId > 0 && !Ready(s);
    hide Steady, Sheds, Connect, Disconnect, Request, Readdir, Closedir, OnServiceTimer, OnPollEvent, FdChange,
      EventsChange, Finalize, P.Free, Rank, Sound, Routed, AllSettled;
    ShedsSimply(s, s);
    if Asks(e) {
      NotReadyRefuses(s, e);
      ShedsSimply(s, Step(s, e));
    } else if Possible(s, e) {
      match e
      case DoDisconnect(now, reply, rc, script) => DisconnectSheds(s, now, reply, rc, script);
      case TimerFires(script, rc, teardown) => TimerSheds(s, script, rc, teardown);
      case PollFires(status, readable, writable, script, rc, reply, teardown) =>
        PollEventSheds(s, status, readable, writable, script, rc, reply, teardown);
      case FdMoves(ctx, fd, add, reply, teardown) => FdChangeSheds(s, ctx, fd, add, reply, teardown);
      case MaskMoves(ctx, mask, reply, teardown) => EventsChangeSheds(s, ctx, mask, reply, teardown);
      case PollCloses(id) => ShedsSimply(s, s.(link := P.Free(s.link, id)));
      case Collected(script) => {
        CollectableIsQuiet(s);
        FinalizeSheds(s, script);
      }
      case _ =>
    }
  }

  // ---- Every run --------------------------------------------------------------------------

  lemma {:induction false} RunSheds(w: World, id: WrapId, later: seq<Action>)
    requires Valid(w) && id in w.wraps && Rank(w.wraps[id]) >= DISCONNECTING
    ensures id in Run(w, later).wraps && Sheds(w.wraps[id], Run(w, later).wraps[id])
    ensures Rank(Run(w, later).wraps[id]) >= DISCONNECTING
    decreases later
  {
    hide Steady, Step, Sheds, Rank, Next;
    if later == [] {
      ShedsSimply(w.wraps[id], w.wraps[id]);
    } else {
      var n := Next(w, later[0]);
      FocusSheds(w, id, later[0]);
      RunSheds(n, id, later[1..]);
      ShedsTrans(w.wraps[id], n.wraps[id], Run(w, later).wraps[id]);
    }
  }

  lemma FocusSheds(w: World, id: WrapId, a: Action)
    requires Valid(w) && id in w.wraps && Rank(w.wraps[id]) >= DISCONNECTING
    ensures var n := Next(w, a);
      && Valid(n) && id in n.wraps && Sheds(w.wraps[id], n.wraps[id]) && Rank(n.wraps[id]) >= DISCONNECTING
  {
    hide Steady, Step, Sheds, Rank, Next;
    NextValid(w, a);
    NextFocus(w, id, a);
    ShedsSimply(w.wraps[id], w.wraps[id]);
    if a.Enter? && a.self == id {
      OwnStepSheds(w.wraps[id], w.shared, a.event);
    }
  }

  lemma OwnStepSheds(s: Wrap, shared: Shared, e: Event)
    requires Steady(s.(shared := shared), {}) && Rank(s) >= DISCONNECTING
    ensures var t := Step(s.(shared := shared), e); Sheds(s, t) && Rank(t) >= DISCONNECTING
  {
    SharedRank(s, shared);
    hide Steady, Step, Sheds, Rank;
    var s1 := s.(shared := shared);
    StepStaysDown(s1, e);
    ShedsSimply(s, s1);
    ShedsTrans(s, s1, Step(s1, e));
  }

  lemma SharedRank(s: Wrap, shared: Shared)
    ensures Rank(s.(shared := shared)) == Rank(s)
  {
  }

  lemma StepStaysDown(s: Wrap, e: Event)
    requires Steady(s, {}) && Rank(s) >= DISCONNECTING
    ensures Sheds(s, Step(s, e)) && Rank(Step(s, e)) >= DISCONNECTING
  {
    hide Steady, Step, Sheds, Rank, Kept, Evolves;
    StepSheds(s, e);
    StepKeeps(s, e);
    KeptParts(s, Step(s, e));
    EvolvesRank(s, Step(s, e));
  }

  /** What a run that begins with a disconnect makes of a table that was `before`: no handle comes
      into it, and what leaves it is dropped, not closed; all of it once the connection is down. */
  ghost predicate Abandons(before: T.Table, after: T.Table, down: bool) {
    && (forall h: T.Native :: T.InTable(after, h) ==> T.InTable(before, h))
    && (forall h: T.Native ::
          T.InTable(after, h) || T.WasDropped(after, h) <==> T.InTable(before, h) || T.WasDropped(before, h))
    && (down ==> forall h: T.Native :: T.WasDropped(after, h) <==> T.InTable(before, h) || T.WasDropped(before, h))
    && (down ==> (before.entries == map[] <==>
          forall h: T.Native :: T.WasDropped(after, h) ==> T.WasDropped(before, h)))
  }

  lemma TableAbandons(before: T.Table, after: T.Table, down: bool)
    requires T.TableInv(before) && T.TableInv(after) && T.Sheds(before, after) && before.opens < 0x1_0000_0000
    requires down ==> after.entries == map[]
    ensures Abandons(before, after, down)
  {
    forall h: T.Native
      ensures T.Held(before, h) <==> T.InTable(before, h)
      ensures T.Held(after, h) <==> T.InTable(after, h)
      ensures T.InTable(before, h) ==> !T.WasDropped(before, h)
    {
      T.HeldInTable(before, h);
      T.HeldInTable(after, h);
    }
    hide T.TableInv, T.WasDropped, T.Held;
    if before.entries != map[] {
      var id :| id in before.entries;
      assert T.InTable(before, before.entries[id].native);
    }
  }

  /** A disconnect closes no handle, and no handle can be closed after it: what it finds in the
      tables is dropped, and so nothing is dropped if and only if both tables are empty. */
  lemma DisconnectDropsHandles(w: World, id: WrapId, now: nat, reply: Reply, rc: int, script: Script,
                               later: seq<Action>)
    requires Reachable(w) && id in w.wraps && w.wraps[id].connected
    ensures var n := Run(Next(w, Enter(id, DoDisconnect(now, reply, rc, script))), later);
      && id in n.wraps
      && (w.wraps[id].files.opens < 0x1_0000_0000 ==>
            Abandons(w.wraps[id].files, n.wraps[id].files, Rank(n.wraps[id]) > DISCONNECTING))
      && (w.wraps[id].dirs.opens < 0x1_0000_0000 ==>
            Abandons(w.wraps[id].dirs, n.wraps[id].dirs, Rank(n.wraps[id]) > DISCONNECTING))
  {
    hide Steady, Disconnect, Run, Remembers, NoNewSuccess, Rank, Sheds, Abandons, T.TableInv;
    ReachableSteady(w, id);
    var s := Focus(w, id);
    var a := Enter(id, DoDisconnect(now, reply, rc, script));
    var w1 := Next(w, a);
    var n := Run(w1, later);
    DisconnectSheds(s, now, reply, rc, script);
    DisconnectRejectsAll(s, now, reply, rc, script);
    assert w1.wraps[id] == Disconnect(s, now, reply, rc, script);
    NextValid(w, a);
    hide Next, Step, Reachable;
    RunSheds(w1, id, later);
    ShedsSimply(w.wraps[id], s);
    ShedsTrans(w.wraps[id], s, w1.wraps[id]);
    ShedsTrans(w.wraps[id], w1.wraps[id], n.wraps[id]);
    RunValid(w1, later);
    TablesSound(s, {});
    DownIsEmpty(n.wraps[id], n.shared);
    WrapAbandons(w.wraps[id], n.wraps[id]);
  }

  lemma DownIsEmpty(s: Wrap, shared: Shared)
    requires Steady(s.(shared := shared), {})
    ensures T.TableInv(s.files) && T.TableInv(s.dirs)
    ensures Rank(s) > DISCONNECTING ==> s.files.entries == map[] && s.dirs.entries == map[]
  {
    hide LedgerInv, T.TableInv, P.LinkInv;
  }

  lemma WrapAbandons(s: Wrap, t: Wrap)
    requires T.TableInv(s.files) && T.TableInv(s.dirs) && T.TableInv(t.files) && T.TableInv(t.dirs)
    requires Sheds(s, t)
    requires Rank(t) > DISCONNECTING ==> t.files.entries == map[] && t.dirs.entries == map[]
    ensures s.files.opens < 0x1_0000_0000 ==> Abandons(s.files, t.files, Rank(t) > DISCONNECTING)
    ensures s.dirs.opens < 0x1_0000_0000 ==> Abandons(s.dirs, t.dirs, Rank(t) > DISCONNECTING)
  {
    hide T.TableInv, T.Sheds, Rank, Abandons;
    if s.files.opens < 0x1_0000_0000 {
      TableAbandons(s.files, t.files, Rank(t) > DISCONNECTING);
    }
    if s.dirs.opens < 0x1_0000_0000 {
      TableAbandons(s.dirs, t.dirs, Rank(t) > DISCONNECTING);
    }
  }
}
