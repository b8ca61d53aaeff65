/**
 What a teardown leaves, read off the script of the dying context: which callbacks it names, and
 whether a disconnect is among them.
 */
module Teardown {
  import opened Options
  import opened Operations
  import opened Lifecycle
  import opened Invariants
  import T = HandleTable
  import P = PollLink

  /** The operations a script calls back. */
  function FiredBy(script: Script): set<OpId> {
    if script == [] then {}
    else (if script[0].Complete? then {script[0].op} else {}) + FiredBy(script[1..])
  }

  predicate IsDisconnect(m: Ledger, id: OpId) {
    id in m.operations && m.operations[id].kind.DisconnectOp?
  }

  /** A disconnect in flight is called back. */
  predicate Disconnects(m: Ledger, names: set<OpId>) {
    exists id :: id in m.outstanding && id in names && IsDisconnect(m, id)
  }

  // ---- One callback -----------------------------------------------------------------------

  /** What is left of a dying context's operations when those in `names` have been called back. */
  ghost predicate Leaves(s: Wrap, t: Wrap, names: set<OpId>) {
    && t.ledger.outstanding == s.ledger.outstanding - names
    && t.ledger.pending == (if Disconnects(s.ledger, names) then {}
                            else s.ledger.pending - s.ledger.outstanding * names)
    && (!Disconnects(s.ledger, names) ==>
          && t.cleanupRef == s.cleanupRef && t.cleanupPending == s.cleanupPending
          && t.scheduleFailed == s.scheduleFailed
          && (s.timer.mode == Off ==> t.timer.mode == Off))
    && (forall id :: id in t.ledger.operations ==>
          id in s.ledger.operations && t.ledger.operations[id] == s.ledger.operations[id])
    && (forall id :: id in t.ledger.outstanding ==> id in t.ledger.operations)
  }

  lemma PlainLeaves(s: Wrap, ctx: CtxId, id: OpId)
    requires Dying(s, ctx) && id in s.ledger.outstanding && !IsDisconnect(s.ledger, id)
    ensures Leaves(s, Finish(s.(ledger := Fired(s.ledger, id)), id), {id})
  {
    hide Dying, Sound, LedgerInv, Retire;
    DyingOwns(s, ctx);
    RetireFacts(Fired(s.ledger, id), id);
    assert !Disconnects(s.ledger, {id});
  }

  lemma DisconnectLeaves(s: Wrap, ctx: CtxId, id: OpId, status: int, reply: Reply)
    requires Dying(s, ctx) && id in s.ledger.outstanding && IsDisconnect(s.ledger, id)
    ensures Leaves(s, OnDisconnectComplete(s.(ledger := Fired(s.ledger, id)), id, status, reply), {id})
  {
    DyingOwns(s, ctx);
    hide Dying, Sound, LedgerInv, Retire, Defer, OnDisconnectComplete, Shrinks, AllSettled, Leaves;
    EndingOutstanding(s.ledger, id, s.cleanupRef);
    var s1 := s.(ledger := Fired(s.ledger, id));
    EndingLedger(s1, id, status, reply);
    assert id in s.ledger.outstanding && id in {id} && IsDisconnect(s.ledger, id);
    assert Disconnects(s.ledger, {id});
    EndsLeaving(s, OnDisconnectComplete(s1, id, status, reply), {id});
  }

  lemma EndsLeaving(s: Wrap, t: Wrap, names: set<OpId>)
    requires Disconnects(s.ledger, names) && t.ledger.pending == {}
    requires t.ledger.outstanding == s.ledger.outstanding - names
    requires forall id :: id in t.ledger.operations ==>
      id in s.ledger.operations && t.ledger.operations[id] == s.ledger.operations[id]
    requires forall id :: id in t.ledger.outstanding ==> id in t.ledger.operations
    ensures Leaves(s, t, names)
  {
  }

  /** Everything else is deferred; of the callbacks only this one has come. */
  lemma EndingOutstanding(m: Ledger, id: OpId, held: bool)
    requires LedgerInv(m, {}, held) && AllSettled(m) && id in m.outstanding
    ensures id in m.operations && m.operations[id].settled
    ensures var fired := Fired(m, id);
      var t := Retire(Defer(fired, fired.pending - {id}), id);
      && t.outstanding == m.outstanding - {id} && t.pending == {}
      && (forall x :: x in t.operations ==> x in m.operations && t.operations[x] == m.operations[x])
      && (forall x :: x in t.outstanding ==> x in t.operations)
  {
    Membership(m, {}, held);
    var fired := Fired(m, id);
    FiredKeeps(m, id, held);
    hide LedgerInv, Retire, Defer, OnlyRejects;
    DeferFacts(fired, {id}, held);
    RetireFacts(Defer(fired, fired.pending - {id}), id);
  }

  /** A disconnect callback on a settled operation. */
  lemma EndingLedger(s: Wrap, id: OpId, status: int, reply: Reply)
    requires id in s.ledger.operations && s.ledger.operations[id].settled
    ensures var t := OnDisconnectComplete(s, id, status, reply).ledger;
      t == Retire(Defer(s.ledger, s.ledger.pending - {id}), id).(refs := t.refs)
  {
    hide Defer, Retire, T.Clear, P.Reset, P.Stop;
  }

  lemma ActLeaves(s: Wrap, ctx: CtxId, act: Act)
    requires Dying(s, ctx)
    ensures Leaves(s, RunAct(s, ctx, act, true), if act.Complete? then {act.op} else {})
  {
    Membership(s.ledger, {}, s.cleanupRef);
    hide LedgerInv, Finish, OnDisconnectComplete, Leaves, OnComplete;
    if act.Complete? && act.op in s.ledger.outstanding {
      var s1 := s.(ledger := Fired(s.ledger, act.op));
      if IsDisconnect(s.ledger, act.op) {
        DisconnectLeaves(s, ctx, act.op, DyingStatus(s.ledger.operations, act.op, act.status), act.reply);
        Dispatch(s1, act.op, DyingStatus(s.ledger.operations, act.op, act.status), act.reply, act.nested);
      } else {
        SettledCompletion(s1, act.op, DyingStatus(s.ledger.operations, act.op, act.status), act.reply, act.nested);
        PlainLeaves(s, ctx, act.op);
      }
    } else {
      NothingLeaves(s, if act.Complete? then {act.op} else {});
    }
  }

  lemma Dispatch(s: Wrap, id: OpId, status: int, reply: Reply, nested: Script)
    requires IsDisconnect(s.ledger, id)
    ensures OnComplete(s, id, status, reply, nested) == OnDisconnectComplete(s, id, status, reply)
  {
    hide OnDisconnectComplete;
  }

  lemma NothingLeaves(s: Wrap, names: set<OpId>)
    requires s.ledger.outstanding !! names && s.ledger.outstanding <= s.ledger.operations.Keys
    ensures Leaves(s, s, names)
  {
    assert s.ledger.pending - s.ledger.outstanding * names == s.ledger.pending;
  }

  // ---- A script ---------------------------------------------------------------------------

  lemma LeavesTrans(a: Wrap, b: Wrap, c: Wrap, first: set<OpId>, rest: set<OpId>)
    requires Leaves(a, b, first) && Leaves(b, c, rest)
    ensures Leaves(a, c, first + rest)
  {
    if Disconnects(a.ledger, first) {
      var id :| id in a.ledger.outstanding && id in first && IsDisconnect(a.ledger, id);
      assert id in first + rest;
    } else if Disconnects(b.ledger, rest) {
      var id :| id in b.ledger.outstanding && id in rest && IsDisconnect(b.ledger, id);
      assert id in a.ledger.outstanding && id in first + rest && IsDisconnect(a.ledger, id);
    } else {
      forall id | id in a.ledger.outstanding && id in first + rest ensures !IsDisconnect(a.ledger, id) {
        if id !in first {
          assert id in b.ledger.outstanding && id in rest && !IsDisconnect(b.ledger, id);
        }
      }
    }
  }

  /** A dying context leaves exactly the callbacks its script does not name. */
  lemma {:induction false} ScriptLeaves(s: Wrap, ctx: CtxId, script: Script)
    requires Dying(s, ctx)
    ensures Leaves(s, RunScript(s, ctx, script, true), FiredBy(script))
    decreases script
  {
    hide Dying, Leaves, RunAct;
    if script == [] {
      DyingOwns(s, ctx);
      NothingLeaves(s, {});
    } else {
      var s1 := RunAct(s, ctx, script[0], true);
      ActDying(s, ctx, script[0]);
      ActLeaves(s, ctx, script[0]);
      ScriptLeaves(s1, ctx, script[1..]);
      LeavesTrans(s, s1, RunScript(s1, ctx, script[1..], true),
                  if script[0].Complete? then {script[0].op} else {}, FiredBy(script[1..]));
    }
  }

  lemma DyingOwns(s: Wrap, ctx: CtxId)
    requires Dying(s, ctx)
    ensures LedgerInv(s.ledger, {}, s.cleanupRef) && AllSettled(s.ledger)
    ensures s.ledger.outstanding <= s.ledger.operations.Keys
  {
    Membership(s.ledger, {}, s.cleanupRef);
  }
}
