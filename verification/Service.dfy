/**
 Whether a context survives being serviced.  A failed connect destroys it from inside its callback,
 while smb2_service is still at work on it; nothing else does.
 */
module Service {
  import opened Options
  import opened Operations
  import opened Lifecycle
  import opened Invariants
  import opened Steps
  import opened World
  import opened Theorems
  import opened Outcomes
  import T = HandleTable
  import P = PollLink

  /** libsmb2 answers a connect that is still open. */
  predicate AnswersConnect(m: Ledger, act: Act) {
    && act.Complete? && act.op in m.outstanding
    && Unsettled(m, act.op) && m.operations[act.op].kind.ConnectOp?
  }

  /** The first answer to an open connect is a failure. */
  predicate FirstAnswerFails(m: Ledger, script: Script) {
    script != [] &&
      if AnswersConnect(m, script[0]) then script[0].status < 0 else FirstAnswerFails(m, script[1..])
  }

  // ---- Everything but a failed connect ----------------------------------------------------

  lemma SettlingKeepsContext(s: Wrap, id: OpId, code: Code, value: Value)
    ensures Finish(s, id).context == s.context
    ensures Finish(RejectOp(s, id, code), id).context == s.context
    ensures Finish(ResolveOp(s, id, value), id).context == s.context
  {
    hide Retire, Reject, Settle;
  }

  lemma DisconnectKeepsContext(s: Wrap, id: OpId, status: int, reply: Reply)
    requires id in s.ledger.operations
    ensures OnDisconnectComplete(s, id, status, reply).context == s.context
  {
    hide Retire, Reject, Settle, Defer, AddRefs, T.Clear, P.Reset, P.Stop;
  }

  lemma ReportKeepsContext(s: Wrap, ctx: CtxId, act: Act)
    requires !act.Complete?
    ensures var t := RunAct(s, ctx, act, false);
      t.context == s.context && t.ledger == s.ledger && t.connected == s.connected
  {
    hide RoutesHere, Misroute, P.Start, P.Stop, P.Apply, P.Ask;
    MisrouteKeeps(s, ctx);
  }

  lemma MisrouteKeeps(s: Wrap, ctx: CtxId)
    ensures Misroute(s, ctx) == s.(faults := Misroute(s, ctx).faults)
  {
  }

  lemma {:induction false} CompleteKeepsContext(s: Wrap, ctx: CtxId, id: OpId, status: int, reply: Reply,
                                                nested: Script, busy: set<OpId>)
    requires Called(s, id, busy) && s.ledger.outstanding !! busy && Rank(s) >= ESTABLISHED
    ensures OnComplete(s, id, status, reply, nested).context == s.context
    decreases nested, 4
  {
    hide Called, Rank, Finish, OnConnectComplete, OnDisconnectComplete, OnStatComplete, OnOpenComplete,
      OnOpendirComplete, OnRequestComplete;
    CalledAlive(s, id, busy);
    ConnectIsSettled(s, id, busy);
    match s.ledger.operations[id].kind {
      case ConnectOp => SettledConnect(s, id, status, nested);
      case DisconnectOp => DisconnectKeepsContext(s, id, status, reply);
      case StatOp => StatKeepsContext(s, id, status);
      case OpenOp => OpenKeepsContext(s, id, status, nested, busy);
      case OpendirOp => OpendirKeepsContext(s, id, status);
      case _ => RequestKeepsContext(s, id, status);
    }
  }

  lemma ConnectIsSettled(s: Wrap, id: OpId, busy: set<OpId>)
    requires Called(s, id, busy) && Rank(s) >= ESTABLISHED
    ensures s.ledger.operations[id].kind.ConnectOp? ==> s.ledger.operations[id].settled
  {
    if s.ledger.operations[id].kind.ConnectOp? && !s.ledger.operations[id].settled {
      OnlyConnect(s, id, busy);
    }
  }

  lemma SettledConnect(s: Wrap, id: OpId, status: int, nested: Script)
    requires id in s.ledger.operations && s.ledger.operations[id].settled
    ensures OnConnectComplete(s, id, status, nested).context == s.context
  {
    hide Retire, CleanupContext;
  }

  lemma StatKeepsContext(s: Wrap, id: OpId, status: int)
    requires id in s.ledger.operations
    ensures OnStatComplete(s, id, status).context == s.context
  {
    hide Retire, Reject, Settle;
  }

  lemma RequestKeepsContext(s: Wrap, id: OpId, status: int)
    requires id in s.ledger.operations
    ensures OnRequestComplete(s, id, status).context == s.context
  {
    hide Retire, Reject, Settle;
  }

  lemma OpendirKeepsContext(s: Wrap, id: OpId, status: int)
    requires id in s.ledger.operations
    ensures OnOpendirComplete(s, id, status).context == s.context
  {
    hide Retire, Reject, Settle, T.Insert, T.Bounce, T.Abandon;
  }

  /** Closing the handle of an open that nobody waits for lets other callbacks run in between. */
  lemma {:induction false} OpenKeepsContext(s: Wrap, id: OpId, status: int, nested: Script, busy: set<OpId>)
    requires Called(s, id, busy) && s.ledger.outstanding !! busy && Rank(s) >= ESTABLISHED
    requires s.ledger.operations[id].kind.OpenOp?
    ensures OnOpenComplete(s, id, status, nested).context == s.context
    decreases nested, 3
  {
    CalledAlive(s, id, busy);
    var op := s.ledger.operations[id];
    var s1 := Touch(s.(files := T.Bounce(s.files)));
    assert s.context.Some?;
    if op.settled && status == 0 {
      BouncedServing(s, id, busy);
      hide Called, Serving, Evolves, Steady, T.Bounce, Finish, RejectOp, RunScript, Touch;
      RankAfter(s, s1);
      ScriptKeepsContext(s1, s.context.value, nested, busy + {id});
      var s2 := RunScript(s1, s.context.value, nested, false);
      SettlingKeepsContext(s2, id, ConnectionLost, Undefined);
      assert s1.context == s.context by { TouchFrame(s.(files := T.Bounce(s.files))); }
    } else {
      if !op.settled {
        StillOpen(s, id, busy);
      }
      hide Called, Rank, Steady;
      OpenPlain(s, id, status, nested);
    }
  }

  lemma RankAfter(s: Wrap, t: Wrap)
    requires Evolves(s, t)
    ensures Rank(s) <= Rank(t)
  {
  }

  /** On a connection that is closing every open has been settled. */
  lemma StillOpen(s: Wrap, id: OpId, busy: set<OpId>)
    requires Called(s, id, busy) && s.ledger.operations[id].kind.OpenOp? && !s.ledger.operations[id].settled
    ensures !s.disconnecting
  {
    OpenMeansConnected(s, id, busy);
  }

  lemma OpenPlain(s: Wrap, id: OpId, status: int, nested: Script)
    requires id in s.ledger.operations
    requires if s.ledger.operations[id].settled then status != 0 else !s.disconnecting
    ensures OnOpenComplete(s, id, status, nested).context == s.context
  {
    hide Retire, Reject, Settle, T.Insert, RunScript;
  }

  lemma {:induction false} ScriptKeepsContext(s: Wrap, ctx: CtxId, script: Script, busy: set<OpId>)
    requires Serving(s, ctx, busy) && Rank(s) >= ESTABLISHED
    ensures RunScript(s, ctx, script, false).context == s.context
    decreases script, 0
  {
    hide Serving, Evolves, Spares, RunAct, Rank;
    if script != [] {
      var s1 := RunAct(s, ctx, script[0], false);
      ActServed(s, ctx, script[0], busy);
      ActKeepsContext(s, ctx, script[0], busy);
      RankAfter(s, s1);
      ScriptKeepsContext(s1, ctx, script[1..], busy);
    }
  }

  lemma {:induction false} ActKeepsContext(s: Wrap, ctx: CtxId, act: Act, busy: set<OpId>)
    requires Serving(s, ctx, busy) && Rank(s) >= ESTABLISHED
    ensures RunAct(s, ctx, act, false).context == s.context
    decreases act
  {
    hide Serving, Called, Evolves, OnComplete, Rank;
    if !act.Complete? {
      ReportKeepsContext(s, ctx, act);
    } else if act.op in s.ledger.outstanding {
      FiredCalled(s, ctx, act.op, busy);
      var s1 := s.(ledger := Fired(s.ledger, act.op));
      RankAfter(s, s1);
      CompleteKeepsContext(s1, ctx, act.op, act.status, act.reply, act.nested, busy);
    }
  }

  // ---- Connecting -------------------------------------------------------------------------

  lemma {:induction false} NoConnectFails(m: Ledger, script: Script)
    requires forall id :: Unsettled(m, id) ==> !m.operations[id].kind.ConnectOp?
    ensures !FirstAnswerFails(m, script)
  {
    if script != [] {
      NoConnectFails(m, script[1..]);
    }
  }

  lemma UpHasNoConnect(s: Wrap)
    requires Steady(s, {}) && Rank(s) >= ESTABLISHED
    ensures forall id :: Unsettled(s.ledger, id) ==> !s.ledger.operations[id].kind.ConnectOp?
  {
    SoundMembership(s);
    hide LedgerInv, T.TableInv, P.LinkInv;
  }

  /** While a connection is connecting, whatever libsmb2 may call back is its connect. */
  lemma OnlyConnectFires(s: Wrap, op: OpId)
    requires Steady(s, {}) && Rank(s) == CONNECTING && op in s.ledger.outstanding
    ensures Unsettled(s.ledger, op) && s.ledger.operations[op].kind.ConnectOp?
  {
    SoundMembership(s);
    hide LedgerInv, T.TableInv, P.LinkInv;
  }

  lemma {:induction false} ConnectingScript(s: Wrap, ctx: CtxId, script: Script)
    requires Serving(s, ctx, {}) && s.context == Some(ctx) && Rank(s) == CONNECTING
    ensures RunScript(s, ctx, script, false).context == if FirstAnswerFails(s.ledger, script) then None else Some(ctx)
    decreases script
  {
    hide Serving, Steady, Evolves, Spares, RunAct;
    if script != [] {
      var s1 := RunAct(s, ctx, script[0], false);
      ActServed(s, ctx, script[0], {});
      ServingSteady(s, ctx);
      if script[0].Complete? && script[0].op in s.ledger.outstanding {
        OnlyConnectFires(s, script[0].op);
        Answered(s, ctx, script[0]);
        hide Rank;
        RankAfter(s, s1);
        ScriptKeepsContext(s1, ctx, script[1..], {});
      } else {
        Unanswered(s, ctx, script[0]);
        ConnectingScript(s1, ctx, script[1..]);
      }
    }
  }

  lemma ServingSteady(s: Wrap, ctx: CtxId)
    requires Serving(s, ctx, {})
    ensures Steady(s, {})
  {
  }

  lemma Unanswered(s: Wrap, ctx: CtxId, act: Act)
    requires !act.Complete? || act.op !in s.ledger.outstanding
    ensures var t := RunAct(s, ctx, act, false);
      t.context == s.context && t.ledger == s.ledger && Rank(t) == Rank(s) && !AnswersConnect(s.ledger, act)
  {
    if !act.Complete? {
      ReportKeepsContext(s, ctx, act);
    }
  }

  lemma Answered(s: Wrap, ctx: CtxId, act: Act)
    requires Serving(s, ctx, {}) && s.context == Some(ctx) && AnswersConnect(s.ledger, act)
    ensures var t := RunAct(s, ctx, act, false);
      Rank(t) >= ESTABLISHED && t.context == if act.status < 0 then None else Some(ctx)
  {
    FiredCalled(s, ctx, act.op, {});
    var s1 := s.(ledger := Fired(s.ledger, act.op));
    assert RunAct(s, ctx, act, false) == OnConnectComplete(s1, act.op, act.status, act.nested);
    hide Serving, Evolves, RunAct, OnConnectComplete;
    if act.status < 0 {
      FailureDestroys(s1, act.op, act.status, act.nested);
    } else {
      ConnectSucceeds(s1, act.op, {}, act.status, act.nested);
      SuccessKeepsContext(s1, act.op, act.status, act.nested);
    }
  }

  lemma SuccessKeepsContext(s: Wrap, id: OpId, status: int, nested: Script)
    requires id in s.ledger.operations && !s.ledger.operations[id].settled && status >= 0
    ensures OnConnectComplete(s, id, status, nested).context == s.context
  {
    hide Retire, Settle, CleanupContext;
  }

  lemma FailureDestroys(s: Wrap, id: OpId, status: int, nested: Script)
    requires Called(s, id, {}) && Unsettled(s.ledger, id) && s.ledger.operations[id].kind.ConnectOp? && status < 0
    ensures var t := OnConnectComplete(s, id, status, nested); t.context == None && Rank(t) == FINISHED
  {
    var s1 := RejectOp(s, id, Classified(status));
    RejectedConnect(s, id, Classified(status), {});
    hide Called, Steady, Sound, Routed, AllSettled, CleanupContext, RejectOp, Finish, Evolves, Spares;
    CleanupEffect(s1, nested);
    var s2 := CleanupContext(s1, nested);
    SettlingKeepsContext(s2, id, ConnectionLost, Undefined);
    FinishKeepsAge(s2, id);
  }

  lemma FinishKeepsAge(s: Wrap, id: OpId)
    ensures Finish(s, id).ledger.nextId == s.ledger.nextId
  {
    hide IdleTimer;
  }

  /** A context that is being serviced is destroyed in the middle of it if and only if a connect is
      open and the first answer to it is a failure. */
  lemma DestroyedWhileServed(w: World, id: WrapId, script: Script)
    requires Reachable(w) && id in w.wraps && w.wraps[id].context.Some?
    ensures var s := Focus(w, id);
      RunScript(Touch(s), s.context.value, script, false).context
      == if FirstAnswerFails(s.ledger, script) then None else s.context
  {
    hide Steady, RunScript, Touch, Reachable;
    ReachableSteady(w, id);
    ServedContext(Focus(w, id), script);
  }

  lemma ServedContext(s: Wrap, script: Script)
    requires Steady(s, {}) && s.context.Some?
    ensures RunScript(Touch(s), s.context.value, script, false).context
         == if FirstAnswerFails(s.ledger, script) then None else s.context
  {
    AliveIsOld(s, {});
    assert Rank(s) >= CONNECTING;
    hide Steady, RunScript, Touch, Rank;
    if Rank(s) >= ESTABLISHED {
      UpHasNoConnect(s);
      NoConnectFails(s.ledger, script);
      ScriptKeepsContext(s, s.context.value, script, {});
    } else {
      ConnectingScript(s, s.context.value, script);
    }
  }
}
