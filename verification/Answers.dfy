/**
 What the callbacks of one service call do, for scripts of any length: each request that libsmb2
 answers is settled with its own verdict, and nothing happens that no callback did.
 */
module Answers {
  import opened Options
  import opened Operations
  import opened Lifecycle
  import opened Invariants
  import opened Steps
  import opened Outcomes
  import T = HandleTable
  import P = PollLink
  import Paths

  lemma {:induction false} ScriptAppend(s: Wrap, ctx: CtxId, a: Script, b: Script, dying: bool)
    ensures RunScript(s, ctx, a + b, dying) == RunScript(RunScript(s, ctx, a, dying), ctx, b, dying)
    decreases a
  {
    hide RunAct;
    if a == [] {
      assert a + b == b;
    } else {
      assert (a + b)[1..] == a[1..] + b;
      ScriptAppend(RunAct(s, ctx, a[0], dying), ctx, a[1..], b, dying);
    }
  }

  /** A request whose promise is open and whose callback libsmb2 owes. */
  predicate Awaits(m: Ledger, id: OpId) {
    && id in m.outstanding && Unsettled(m, id)
    && !m.operations[id].kind.ConnectOp? && !m.operations[id].kind.DisconnectOp?
  }

  /** The act answers nothing but such a request, if anything at all. */
  predicate AnswersRequest(m: Ledger, act: Act) {
    act.Complete? && act.op in m.outstanding ==> Awaits(m, act.op)
  }

  /** What is owed in `u` is what is owed in `s` without `done`, and stands as it did. */
  ghost predicate Waiting(s: Wrap, u: Wrap, done: set<OpId>) {
    && u.context == s.context
    && u.ledger.outstanding == s.ledger.outstanding - done
    && (forall id :: id in u.ledger.outstanding && Unsettled(s.ledger, id) ==>
          id in u.ledger.operations && u.ledger.operations[id] == s.ledger.operations[id])
  }

  /** One answer leaves the other requests waiting. */
  lemma OneAnswer(s: Wrap, ctx: CtxId, act: Act, busy: set<OpId>)
    requires Serving(s, ctx, busy) && s.context.Some? && act.Complete? && Awaits(s.ledger, act.op)
    ensures var t := RunAct(s, ctx, act, false);
      && Waiting(s, t, {act.op})
      && Ends(s, t, act.op, Verdict(s, act.op, act.status))
  {
    var s1 := s.(ledger := Fired(s.ledger, act.op));
    hide Serving, Called, Evolves, OnComplete, Spares;
    FiredCalled(s, ctx, act.op, busy);
    assert RunAct(s, ctx, act, false) == OnComplete(s1, act.op, act.status, act.reply, act.nested);
    hide RunAct;
    RequestCompletes(s1, act.op, busy, act.status, act.reply, act.nested);
    RequestKeepsOwed(s1, act.op, busy, act.status, act.reply, act.nested);
    VerdictAnyway(s, act.op, act.status);
    hide Verdict;
  }

  lemma VerdictAnyway(s: Wrap, id: OpId, status: int)
    requires id in s.ledger.operations
    ensures Verdict(s.(ledger := Fired(s.ledger, id)), id, status) == Verdict(s, id, status)
  {
    hide Paths.Basename;
  }

  lemma RequestKeepsOwed(s: Wrap, id: OpId, busy: set<OpId>, status: int, reply: Reply, nested: Script)
    requires Called(s, id, busy) && Unsettled(s.ledger, id)
    requires !s.ledger.operations[id].kind.ConnectOp? && !s.ledger.operations[id].kind.DisconnectOp?
    ensures var t := OnComplete(s, id, status, reply, nested);
      t.ledger.outstanding == s.ledger.outstanding && t.context == s.context
  {
    OpenMeansConnected(s, id, busy);
    CalledLedger(s, id, busy);
    hide Called, LedgerInv, OnComplete, WithHandle, Delivered, RejectOp, ResolveOp, Finish;
    RequestSplit(s, id, status, reply, nested);
    HandleKeepsLedger(s, id);
    EndKeepsOwed(s, id, Classified(status), Undefined);
    if status >= 0 {
      EndKeepsOwed(WithHandle(s, id), id, Classified(status), Delivered(s, id, status));
      HandleKeepsContext(s, id);
    }
  }

  lemma HandleKeepsContext(s: Wrap, id: OpId)
    requires id in s.ledger.operations
    ensures WithHandle(s, id).context == s.context
  {
  }

  lemma EndKeepsOwed(s: Wrap, id: OpId, code: Code, value: Value)
    ensures var t := Finish(RejectOp(s, id, code), id);
      t.ledger.outstanding == s.ledger.outstanding && t.context == s.context
    ensures var t := Finish(ResolveOp(s, id, value), id);
      t.ledger.outstanding == s.ledger.outstanding && t.context == s.context
  {
  }

  /** Acts that answer only requests leave every other request waiting. */
  lemma {:induction false} OthersWait(s: Wrap, ctx: CtxId, script: Script, rest: OpId, busy: set<OpId>)
    requires Serving(s, ctx, busy) && s.context.Some? && Awaits(s.ledger, rest)
    requires forall j :: 0 <= j < |script| ==> AnswersRequest(s.ledger, script[j])
    requires forall j :: 0 <= j < |script| && script[j].Complete? ==> script[j].op != rest
    ensures var u := RunScript(s, ctx, script, false);
      && Serving(u, ctx, busy) && u.context == s.context && Awaits(u.ledger, rest)
      && u.ledger.operations[rest] == s.ledger.operations[rest]
    decreases script
  {
    hide Serving, RunAct, Evolves, Spares;
    if script != [] {
      var s1 := RunAct(s, ctx, script[0], false);
      ActServed(s, ctx, script[0], busy);
      if script[0].Complete? && script[0].op in s.ledger.outstanding {
        assert Awaits(s.ledger, script[0].op);
        OneAnswer(s, ctx, script[0], busy);
      } else {
        Nothing(s, ctx, script[0]);
      }
      forall j | 0 <= j < |script[1..]| ensures AnswersRequest(s1.ledger, script[1..][j]) {
        assert script[1..][j] == script[j + 1] && AnswersRequest(s.ledger, script[j + 1]);
      }
      OthersWait(s1, ctx, script[1..], rest, busy);
    }
  }

  lemma Nothing(s: Wrap, ctx: CtxId, act: Act)
    requires !act.Complete? || act.op !in s.ledger.outstanding
    ensures var t := RunAct(s, ctx, act, false);
      t.ledger == s.ledger && t.context == s.context
  {
    hide RoutesHere, P.Start, P.Stop, P.Apply, P.Ask;
  }

  /** A request that libsmb2 answers is settled with its verdict and freed, at whatever place of the
      script its answer comes, and it stays so to the end, if before it only requests are answered. */
  lemma EachIsAnswered(s: Wrap, script: Script, k: nat, busy: set<OpId>)
    requires s.context.Some? && Serving(s, s.context.value, busy) && k < |script|
    requires script[k].Complete? && Awaits(s.ledger, script[k].op)
    requires forall j :: 0 <= j < k ==> AnswersRequest(s.ledger, script[j])
    requires forall j :: 0 <= j < k && script[j].Complete? ==> script[j].op != script[k].op
    ensures var op := script[k].op;
      var before := RunScript(s, s.context.value, script[..k], false);
      && op in before.ledger.operations && before.ledger.operations[op] == s.ledger.operations[op]
      && Ends(s, RunScript(s, s.context.value, script, false), op, Verdict(before, op, script[k].status))
  {
    var ctx := s.context.value;
    hide Steady, Serving, RunScript, AnswersRequest, Awaits, Ends, Verdict;
    var before := RunScript(s, ctx, script[..k], false);
    PrefixAnswers(s, script, k);
    OthersWait(s, ctx, script[..k], script[k].op, busy);
    assert script == script[..k] + script[k..] && script[k..][0] == script[k];
    ScriptAppend(s, ctx, script[..k], script[k..], false);
    AwaitedIsOld(before, script[k].op);
    FirstIsAnswered(before, ctx, script[k..], busy);
    var outcome := Verdict(before, script[k].op, script[k].status);
    EndsAnyway(before, s, RunScript(s, ctx, script, false), script[k].op, outcome);
  }

  lemma PrefixAnswers(s: Wrap, script: Script, k: nat)
    requires k < |script| && script[k].Complete?
    requires forall j :: 0 <= j < k ==> AnswersRequest(s.ledger, script[j])
    requires forall j :: 0 <= j < k && script[j].Complete? ==> script[j].op != script[k].op
    ensures forall j :: 0 <= j < |script[..k]| ==> AnswersRequest(s.ledger, script[..k][j])
    ensures forall j :: 0 <= j < |script[..k]| && script[..k][j].Complete? ==> script[..k][j].op != script[k].op
  {
    hide AnswersRequest;
  }

  lemma ServingLedger(s: Wrap, ctx: CtxId, busy: set<OpId>)
    requires Serving(s, ctx, busy)
    ensures LedgerInv(s.ledger, {}, s.cleanupRef)
  {
  }

  lemma AliveServes(s: Wrap)
    requires Steady(s, {}) && s.context.Some?
    ensures Serving(s, s.context.value, {})
  {
    AliveIsOld(s, {});
    hide Steady;
  }

  lemma AwaitedIsOld(s: Wrap, id: OpId)
    requires Awaits(s.ledger, id)
    ensures id in s.ledger.operations
  {
  }

  lemma EndsAnyway(s: Wrap, s1: Wrap, t: Wrap, id: OpId, outcome: Outcome)
    requires Ends(s, t, id, outcome)
    ensures Ends(s1, t, id, outcome)
  {
  }

  lemma FirstIsAnswered(s: Wrap, ctx: CtxId, script: Script, busy: set<OpId>)
    requires Serving(s, ctx, busy) && s.context.Some? && script != []
    requires script[0].Complete? && Awaits(s.ledger, script[0].op)
    ensures Ends(s, RunScript(s, ctx, script, false), script[0].op, Verdict(s, script[0].op, script[0].status))
  {
    var act := script[0];
    AwaitedIsOld(s, act.op);
    hide Serving, RunAct, Evolves, Spares, Ends, Awaits;
    var after := RunAct(s, ctx, act, false);
    OneAnswer(s, ctx, act, busy);
    ActServed(s, ctx, act, busy);
    ScriptServed(after, ctx, script[1..], busy);
    EndedStays(s, after, RunScript(after, ctx, script[1..], false), act.op, Verdict(s, act.op, act.status), ctx,
               busy);
  }

  lemma EndedStays(s: Wrap, u: Wrap, t: Wrap, id: OpId, outcome: Outcome, ctx: CtxId,
                   busy: set<OpId>)
    requires Ends(s, u, id, outcome) && Serving(u, ctx, busy) && Served(u, t, ctx, busy)
    ensures Ends(s, t, id, outcome)
  {
    ServingLedger(u, ctx, busy);
    Membership(u.ledger, {}, u.cleanupRef);
    hide Steady, LedgerInv, Spares;
  }

  // ---- Service calls ----------------------------------------------------------------------

  /** A poll event that reports something, or a tick of the timer, and libsmb2 and libuv accept. */
  predicate Services(s: Wrap, e: Event) {
    || (e.PollFires? && e.status >= 0 && (e.readable || e.writable) && e.rc >= 0 && e.reply.Accepted?)
    || (e.TimerFires? && s.timer.mode == Tick && !s.cleanupPending && e.rc >= 0)
  }

  /** Such an event leaves the connection exactly as the callbacks leave it. */
  lemma ServiceRunsCallbacks(s: Wrap, e: Event)
    requires Steady(s, {}) && s.context.Some? && Possible(s, e) && Services(s, e)
    ensures Step(s, e) == RunScript(s, s.context.value, e.script, false)
  {
    hide RunScript, Touch, Steady, Kept, P.Apply, Step, Possible;
    AliveIsOld(s, {});
    ServiceKeeps(s, e.script);
    AppliedAlready(s, RunScript(s, s.context.value, e.script, false));
    if e.PollFires? {
      PollServes(s, e);
    } else {
      TickServes(s, e);
    }
  }

  lemma PollServes(s: Wrap, e: Event)
    requires s.context.Some? && Touch(s) == s && e.PollFires? && Possible(s, e) && Services(s, e)
    ensures var u := RunScript(s, s.context.value, e.script, false);
      Step(s, e) == u.(link := P.Apply(u.link))
  {
    hide RunScript, HandleFatal, Touch, P.Apply;
  }

  lemma TickServes(s: Wrap, e: Event)
    requires s.context.Some? && Touch(s) == s && e.TimerFires? && Possible(s, e) && Services(s, e)
    ensures Step(s, e) == RunScript(s, s.context.value, e.script, false)
  {
    hide RunScript, HandleFatal, Touch, CleanupContext, DrainDeferred;
  }

  lemma AppliedAlready(s: Wrap, u: Wrap)
    requires Kept(s, u)
    ensures u.(link := P.Apply(u.link)) == u
  {
    hide Evolves, P.Translate;
  }

  /** In every such event each answered request is settled and freed. */
  lemma ServiceAnswers(s: Wrap, e: Event, k: nat)
    requires Steady(s, {}) && s.context.Some? && Possible(s, e) && Services(s, e) && k < |e.script|
    requires e.script[k].Complete? && Awaits(s.ledger, e.script[k].op)
    requires forall j :: 0 <= j < k ==> AnswersRequest(s.ledger, e.script[j])
    requires forall j :: 0 <= j < k && e.script[j].Complete? ==> e.script[j].op != e.script[k].op
    ensures var op := e.script[k].op;
      var before := RunScript(s, s.context.value, e.script[..k], false);
      && op in before.ledger.operations && before.ledger.operations[op] == s.ledger.operations[op]
      && Ends(s, Step(s, e), op, Verdict(before, op, e.script[k].status))
  {
    ServiceRunsCallbacks(s, e);
    AliveServes(s);
    EachIsAnswered(s, e.script, k, {});
    hide Steady, Step, RunScript, Services, Possible, Ends;
  }

  /** And when libsmb2 calls nothing back nothing changes. */
  lemma QuietServiceChangesNothing(s: Wrap, e: Event)
    requires Steady(s, {}) && s.context.Some? && Possible(s, e) && Services(s, e) && e.script == []
    ensures Step(s, e) == s
  {
    ServiceRunsCallbacks(s, e);
    hide Steady, Step, Services, Possible;
  }

  /** Closing the handle of an open that nobody waits for lets libsmb2 call back in between, and what
      it answers there is settled likewise. */
  lemma LateOpenAnswers(s: Wrap, id: OpId, reply: Reply, nested: Script, busy: set<OpId>, k: nat)
    requires Called(s, id, busy) && s.ledger.operations[id].settled && s.ledger.operations[id].kind.OpenOp?
    requires s.ledger.outstanding !! busy && k < |nested|
    requires nested[k].Complete? && Awaits(s.ledger, nested[k].op)
    requires forall j :: 0 <= j < k ==> AnswersRequest(s.ledger, nested[j])
    requires forall j :: 0 <= j < k && nested[j].Complete? ==> nested[j].op != nested[k].op
    ensures var op := nested[k].op;
      exists u: Wrap :: op in u.ledger.operations && u.ledger.operations[op] == s.ledger.operations[op]
        && Ends(s, OnComplete(s, id, 0, reply, nested), op, Verdict(u, op, nested[k].status))
  {
    CalledLedger(s, id, busy);
    BouncedServing(s, id, busy);
    var s1 := Touch(s.(files := T.Bounce(s.files)));
    var ctx, op := s.context.value, nested[k].op;
    assert s1.context == s.context && s1.ledger == s.ledger by { TouchFrame(s.(files := T.Bounce(s.files))); }
    hide Called, LedgerInv, Serving, Evolves, Touch, T.Bounce, RunScript, OnComplete, Ends, Awaits, AnswersRequest;
    EachIsAnswered(s1, nested, k, busy + {id});
    ScriptServed(s1, ctx, nested, busy + {id});
    var u, t := RunScript(s1, ctx, nested[..k], false), RunScript(s1, ctx, nested, false);
    CalledBusy(s, id, busy);
    BounceSpared(s, s1, t, ctx, id, busy);
    BouncedOpen(s, id, reply, nested);
    FinishKeepsEnd(s1, s, t, id, op, Verdict(u, op, nested[k].status));
  }

  lemma CalledBusy(s: Wrap, id: OpId, busy: set<OpId>)
    requires Called(s, id, busy)
    ensures id !in s.ledger.outstanding && id !in busy
  {
  }

  lemma FinishKeepsEnd(s: Wrap, s1: Wrap, t: Wrap, id: OpId, op: OpId, outcome: Outcome)
    requires Ends(s, t, op, outcome) && id in t.ledger.operations && t.ledger.operations[id].settled
    ensures Ends(s1, Finish(RejectOp(t, id, ConnectionLost), id), op, outcome)
  {
    RejectSettled(t.ledger, id, ConnectionLost);
    hide Reject;
  }

  lemma BouncedOpen(s: Wrap, id: OpId, reply: Reply, nested: Script)
    requires id in s.ledger.operations && s.ledger.operations[id].settled && s.context.Some?
    requires s.ledger.operations[id].kind.OpenOp?
    ensures var s1 := Touch(s.(files := T.Bounce(s.files)));
      OnComplete(s, id, 0, reply, nested)
      == Finish(RejectOp(RunScript(s1, s.context.value, nested, false), id, ConnectionLost), id)
  {
    hide Finish, RejectOp, RunScript, Touch, T.Bounce;
  }
}
