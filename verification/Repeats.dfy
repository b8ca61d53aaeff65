/**
 A library that calls the connect operation back more than once.

 Everything else assumes that libsmb2 calls back each submission it has accepted at most once.
 When a TCP connect is refused it does not keep to that: `connect_cb` is still set while it is
 being called, so the destroy that OnConnectComplete starts from inside the callback calls it
 again (vendor/libsmb2/lib/socket.c:1070-1074, vendor/libsmb2/lib/init.c:358-362).
 */
module Repeats {
  import opened Options
  import opened Operations
  import opened Lifecycle
  import opened Invariants
  import opened Steps
  import opened World
  import opened Teardown
  import opened Theorems
  import opened Witnesses
  import T = HandleTable
  import P = PollLink

  // ---- A teardown that may call `id` back again -------------------------------------------

  function RunAgain(s: Wrap, ctx: CtxId, script: Script, id: OpId): Wrap
    decreases script
  {
    if script == [] then s
    else RunAgain(ActAgain(s, ctx, script[0], id), ctx, script[1..], id)
  }

  /** As RunAct during a destroy, but `id` is called back whether or not a callback is owed. */
  function ActAgain(s: Wrap, ctx: CtxId, act: Act, id: OpId): Wrap {
    if act.Complete? && act.op == id && id !in s.ledger.outstanding
    then OnComplete(s, id, DyingStatus(s.ledger.operations, id, act.status), act.reply, act.nested)
    else RunAct(s, ctx, act, true)
  }

  function CleanupAgain(s: Wrap, script: Script, id: OpId): Wrap {
    var s1 := Dismantle(s);
    match s1.context
    case None => Closed(s1)
    case Some(ctx) =>
      Closed(Destroyed(s1, RunAgain(Marked(s1, ctx), ctx, script, id), ctx))
  }

  /** What OnConnectComplete does with an open operation and a failing status. */
  function FailConnect(s: Wrap, id: OpId, status: int, script: Script): Wrap {
    Finish(CleanupAgain(RejectOp(s, id, Classified(status)), script, id), id)
  }

  // ---- One callback per submission --------------------------------------------------------

  lemma {:induction false} NotAgain(s: Wrap, ctx: CtxId, script: Script, id: OpId)
    requires id !in FiredBy(script)
    ensures RunAgain(s, ctx, script, id) == RunScript(s, ctx, script, true)
    decreases script
  {
    hide RunAct;
    if script != [] {
      NotAgain(RunAct(s, ctx, script[0], true), ctx, script[1..], id);
    }
  }

  /** When the dying context does not call the operation back again, this is OnConnectComplete. */
  lemma FailsOnce(s: Wrap, id: OpId, status: int, script: Script)
    requires Unsettled(s.ledger, id) && s.ledger.operations[id].kind.ConnectOp? && status < 0
    requires id !in FiredBy(script)
    ensures FailConnect(s, id, status, script) == OnConnectComplete(s, id, status, script)
  {
    hide RunScript, RunAgain, Finish, RejectOp, Dismantle, Marked, Destroyed, Closed;
    var s0 := RejectOp(s, id, Classified(status));
    var s1 := Dismantle(s0);
    if s1.context.Some? {
      NotAgain(Marked(s1, s1.context.value), s1.context.value, script, id);
    }
    assert CleanupAgain(s0, script, id) == CleanupContext(s0, script);
    hide CleanupAgain, CleanupContext;
  }

  // ---- More than one ----------------------------------------------------------------------

  predicate OnlyFaults(m: Ledger, t: Ledger) {
    t == m.(faults := t.faults) && m.faults <= t.faults
  }

  lemma OnlyFaultsTrans(a: Ledger, b: Ledger, c: Ledger)
    requires OnlyFaults(a, b) && OnlyFaults(b, c)
    ensures OnlyFaults(a, c)
    ensures UseAfterFree in b.faults ==> UseAfterFree in c.faults
  {
  }

  /** Nothing but `id` can fire, and it has been freed. */
  lemma {:induction false} FreedAgain(s: Wrap, ctx: CtxId, script: Script, id: OpId)
    requires s.ledger.outstanding == {} && ctx !in s.shared.contexts && id !in s.ledger.operations
    ensures var t := RunAgain(s, ctx, script, id);
      OnlyFaults(s.ledger, t.ledger) && (id in FiredBy(script) ==> UseAfterFree in t.ledger.faults)
    decreases script
  {
    if script != [] {
      hide ActAgain, OnComplete, OnlyFaults;
      var s1 := ActAgain(s, ctx, script[0], id);
      FreedOnceMore(s, ctx, script[0], id);
      FreedAgain(s1, ctx, script[1..], id);
      OnlyFaultsTrans(s.ledger, s1.ledger, RunAgain(s1, ctx, script[1..], id).ledger);
    }
  }

  lemma FreedOnceMore(s: Wrap, ctx: CtxId, act: Act, id: OpId)
    requires s.ledger.outstanding == {} && ctx !in s.shared.contexts && id !in s.ledger.operations
    ensures var t := ActAgain(s, ctx, act, id);
      && OnlyFaults(s.ledger, t.ledger) && t.shared == s.shared
      && t.ledger.outstanding == {} && id !in t.ledger.operations
      && (act.Complete? && act.op == id ==> UseAfterFree in t.ledger.faults)
  {
    hide ActAgain, OnComplete;
    MissesAgain(s, ctx, act, id);
  }

  lemma MissesAgain(s: Wrap, ctx: CtxId, act: Act, id: OpId)
    requires s.ledger.outstanding == {} && ctx !in s.shared.contexts
    ensures var t := ActAgain(s, ctx, act, id);
      if act.Complete? && act.op == id
      then t == OnComplete(s, id, DyingStatus(s.ledger.operations, id, act.status), act.reply, act.nested)
           && (id !in s.ledger.operations ==>
                 t == s.(ledger := s.ledger.(faults := s.ledger.faults + {UseAfterFree})))
      else t == s
  {
    hide OnConnectComplete, OnDisconnectComplete, OnStatComplete, OnOpenComplete, OnOpendirComplete, OnRequestComplete;
  }

  /** The first time `id` is called back again it is freed. */
  lemma {:induction false} RunsAgain(s: Wrap, ctx: CtxId, script: Script, id: OpId)
    requires s.ledger.outstanding == {} && ctx !in s.shared.contexts
    requires id in s.ledger.operations && s.ledger.operations[id].settled && s.ledger.operations[id].kind.ConnectOp?
    ensures var t := RunAgain(s, ctx, script, id);
      if id in FiredBy(script)
      then id !in t.ledger.operations && t.ledger.deleted[id] == s.ledger.deleted[id] + 1
      else t == s
    decreases script
  {
    hide Finish, ActAgain;
    if script != [] {
      MissesAgain(s, ctx, script[0], id);
      if script[0].Complete? && script[0].op == id {
        var status := DyingStatus(s.ledger.operations, id, script[0].status);
        assert OnComplete(s, id, status, script[0].reply, script[0].nested) == Finish(s, id);
        FinishesAgain(s, id);
        FreedAgain(Finish(s, id), ctx, script[1..], id);
      } else {
        RunsAgain(s, ctx, script[1..], id);
      }
    }
  }

  lemma FinishesAgain(s: Wrap, id: OpId)
    requires id in s.ledger.operations
    ensures var t := Finish(s, id);
      && id !in t.ledger.operations && t.ledger.deleted[id] == s.ledger.deleted[id] + 1
      && t.ledger.outstanding == s.ledger.outstanding && t.shared == s.shared
  {
  }

  /** A failed connect frees its operation exactly once, and without a fault, if and only if the
      dying context does not call the operation back again. */
  lemma FailedConnectFrees(s: Wrap, id: OpId, busy: set<OpId>, status: int, script: Script)
    requires Called(s, id, busy) && Unsettled(s.ledger, id) && s.ledger.operations[id].kind.ConnectOp?
    ensures var m := FailConnect(s, id, status, script).ledger;
      && m.deleted[id] == (if id in FiredBy(script) then 2 else 1)
      && (m.faults == {} <==> id !in FiredBy(script))
      && (id in FiredBy(script) ==> DoubleFree in m.faults)
  {
    hide Called, Sound, Routed, AllSettled, Evolves, Spares, RejectOp, CleanupAgain, Retire, IdleTimer;
    var s1 := RejectOp(s, id, Classified(status));
    RejectedConnect(s, id, Classified(status), busy);
    RejectedAlone(s, id, Classified(status), busy);
    CalledLives(s, id, busy);
    CleanedAgain(s1, script, id);
    FinishedTwice(CleanupAgain(s1, script, id).ledger, id);
  }

  lemma CalledLives(s: Wrap, id: OpId, busy: set<OpId>)
    requires Called(s, id, busy)
    ensures s.context.Some?
  {
  }

  lemma CleanedAgain(s: Wrap, script: Script, id: OpId)
    requires Sound(s) && Routed(s) && AllSettled(s.ledger) && s.context.Some? && s.ledger.outstanding == {}
    requires id in s.ledger.operations && s.ledger.operations[id].kind.ConnectOp?
    ensures var m := CleanupAgain(s, script, id).ledger;
      if id in FiredBy(script)
      then id !in m.operations && m.deleted[id] == s.ledger.deleted[id] + 1
      else id in m.operations && m.deleted == s.ledger.deleted && m.faults == s.ledger.faults
  {
    DismantleDying(s);
    var dying := Dismantle(s);
    var ctx := s.context.value;
    MarkedClean(dying, ctx);
    assert id in dying.ledger.operations && dying.ledger.operations[id].settled;
    hide Sound, Routed, RunAgain, Marked, Quiet;
    DyingUnregistered(dying, ctx);
    RunsAgain(dying, ctx, script, id);
    hide AllSettled, Dying, FiredBy;
  }

  lemma DyingUnregistered(s: Wrap, ctx: CtxId)
    requires Dying(s, ctx)
    ensures ctx !in s.shared.contexts
  {
  }

  lemma FinishedTwice(m: Ledger, id: OpId)
    ensures var t := Retire(m, id);
      && t.deleted[id] == m.deleted[id] + 1
      && (id in m.operations ==> t.faults == m.faults)
      && (id !in m.operations ==> DoubleFree in t.faults)
  {
  }

  /** A connect that fails is the only operation there is. */
  lemma RejectedAlone(s: Wrap, id: OpId, code: Code, busy: set<OpId>)
    requires Called(s, id, busy) && Unsettled(s.ledger, id) && s.ledger.operations[id].kind.ConnectOp?
    ensures var t := RejectOp(s, id, code);
      && t.ledger.outstanding == {} && t.ledger.deleted[id] == 0 && t.ledger.faults == {}
      && id in t.ledger.operations && t.ledger.operations[id].settled && t.ledger.operations[id].kind.ConnectOp?
  {
    OnlyConnect(s, id, busy);
    Membership(s.ledger, {}, s.cleanupRef);
    RejectIsSettle(s.ledger, id, code, {}, s.cleanupRef);
    SettleFacts(s.ledger, id, Rejected(code), {}, s.cleanupRef);
    OnceAllocated(s.ledger, id, s.cleanupRef);
    hide LedgerInv, Reject, Settle, Called;
    assert s.ledger.outstanding == {} by { CalledOut(s, id, busy); }
  }

  lemma OnceAllocated(m: Ledger, id: OpId, held: bool)
    requires LedgerInv(m, {}, held) && id in m.operations
    ensures m.deleted[id] == 0 && m.faults == {}
  {
  }

  lemma CalledOut(s: Wrap, id: OpId, busy: set<OpId>)
    requires Called(s, id, busy) && s.ledger.operations.Keys == {id}
    ensures s.ledger.outstanding == {}
  {
    Membership(s.ledger, {}, s.cleanupRef);
  }

  /** The refused TCP connect: the service call reports the failure, and the context that dies of it
      reports it once more. */
  lemma RefusedConnectFreesTwice()
    ensures Reachable(Solo(DIALLED)) && 0 in DIALLED.ledger.outstanding
    ensures var s := DIALLED.(ledger := Fired(DIALLED.ledger, 0));
      var m := FailConnect(s, 0, -1, [Complete(0, -1, Accepted, [])]).ledger;
      m.deleted[0] == 2 && DoubleFree in m.faults
  {
    FreshIsReachable();
    SoloStep(FRESH, DIAL);
    Dials();
    SoloStep(DIALLED, ANSWER);
    var script: Script := [Complete(0, -1, Accepted, [])];
    assert 0 in FiredBy(script);
    hide Reachable, Step, Steady, FailConnect, FiredBy, Called;
    FiredCalled(DIALLED, 0, 0, {});
    FailedConnectFrees(DIALLED.(ledger := Fired(DIALLED.ledger, 0)), 0, {}, -1, script);
  }
}
