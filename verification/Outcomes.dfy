/**
 What every promise is settled with: by the call that makes it, or by the callback that
 completes its operation.
 */
module Outcomes {
  import opened Options
  import opened Texts
  import opened Operations
  import opened Lifecycle
  import opened Invariants
  import opened Steps
  import opened Theorems
  import T = HandleTable
  import P = PollLink
  import Paths

  // ---- Settling and freeing ---------------------------------------------------------------

  /** Settling an open promise and finishing its operation. */
  lemma SettledAndFreed(m: Ledger, id: OpId, outcome: Outcome, held: bool)
    requires LedgerInv(m, {}, held) && Unsettled(m, id)
    ensures var t := Retire(Settle(m, id, outcome), id);
      && t.promises == m.promises[id := Promise(m.operations[id].kind, [outcome])]
      && t.operations == m.operations - {id}
  {
    Membership(m, {}, held);
    assert [] + [outcome] == [outcome];
    var r := Settle(m, id, outcome);
    assert r.promises == m.promises[id := Promise(m.operations[id].kind, [outcome])];
    assert r.operations - {id} == m.operations - {id};
    RetireFacts(r, id);
    hide Settle, Retire, LedgerInv;
  }

  lemma RejectedAndFreed(m: Ledger, id: OpId, code: Code, held: bool)
    requires LedgerInv(m, {}, held) && Unsettled(m, id)
    ensures var t := Retire(Reject(m, id, code), id);
      && t.promises == m.promises[id := Promise(m.operations[id].kind, [Rejected(code)])]
      && t.operations == m.operations - {id}
  {
    RejectIsSettle(m, id, code, {}, held);
    SettledAndFreed(m, id, Rejected(code), held);
    hide LedgerInv, Reject, Settle, Retire;
  }

  // ---- Callbacks --------------------------------------------------------------------------

  /** What each kind of call delivers when its operation succeeds. */
  function Delivered(s: Wrap, id: OpId, status: int): Value
    requires id in s.ledger.operations
  {
    var op := s.ledger.operations[id];
    match op.kind
    case ConnectOp => Connection
    case StatOp => Named(op.path, Paths.Basename(op.path))
    case OpenOp => Number(s.files.next)
    case OpendirOp => Number(s.dirs.next)
    case ReadOp | WriteOp => Number(status)
    case _ => Undefined
  }

  function Verdict(s: Wrap, id: OpId, status: int): Outcome
    requires id in s.ledger.operations
  {
    if status < 0 then Rejected(Classified(status)) else Resolved(Delivered(s, id, status))
  }

  /** The promise of `id` is settled with `outcome` and its operation is gone. */
  predicate Ends(s: Wrap, t: Wrap, id: OpId, outcome: Outcome) {
    && id !in t.ledger.operations
    && id in t.ledger.promises && t.ledger.promises[id].outcomes == [outcome]
  }

  /** Besides, nothing else happens to any operation or promise. */
  predicate EndsAlone(s: Wrap, t: Wrap, id: OpId, outcome: Outcome) {
    && id in s.ledger.operations
    && t.ledger.promises == s.ledger.promises[id := Promise(s.ledger.operations[id].kind, [outcome])]
    && t.ledger.operations == s.ledger.operations - {id}
  }

  /** A request callback settles the promise it was made for, frees its operation, and does
      nothing to any other. */
  lemma RequestCompletes(s: Wrap, id: OpId, busy: set<OpId>, status: int, reply: Reply, nested: Script)
    requires Called(s, id, busy) && Unsettled(s.ledger, id)
    requires !s.ledger.operations[id].kind.ConnectOp? && !s.ledger.operations[id].kind.DisconnectOp?
    ensures EndsAlone(s, OnComplete(s, id, status, reply, nested), id, Verdict(s, id, status))
    ensures Ends(s, OnComplete(s, id, status, reply, nested), id, Verdict(s, id, status))
  {
    OpenMeansConnected(s, id, busy);
    CalledLedger(s, id, busy);
    hide Called, LedgerInv, RejectOp, ResolveOp, Finish, EndsAlone, Ends, OnComplete, Delivered, WithHandle;
    RequestSplit(s, id, status, reply, nested);
    HandleKeepsLedger(s, id);
    if status < 0 {
      RejectedAndFinished(s, id, Classified(status));
    } else {
      var s1 := WithHandle(s, id);
      ResolvedAndFinished(s1, id, Delivered(s, id, status));
      EndsWhatever(s, s1, Finish(ResolveOp(s1, id, Delivered(s, id, status)), id), id, Verdict(s, id, status));
    }
  }

  /** A successful open has put its handle into a table. */
  function WithHandle(s: Wrap, id: OpId): Wrap
    requires id in s.ledger.operations
  {
    var op := s.ledger.operations[id];
    match op.kind
    case OpenOp => s.(files := T.Insert(s.files, op.path))
    case OpendirOp => s.(dirs := T.Insert(s.dirs, op.path))
    case _ => s
  }

  lemma HandleKeepsLedger(s: Wrap, id: OpId)
    requires id in s.ledger.operations
    ensures WithHandle(s, id).ledger == s.ledger && WithHandle(s, id).cleanupRef == s.cleanupRef
  {
  }

  lemma RequestSplit(s: Wrap, id: OpId, status: int, reply: Reply, nested: Script)
    requires Unsettled(s.ledger, id) && s.context.Some? && !s.disconnecting
    requires !s.ledger.operations[id].kind.ConnectOp? && !s.ledger.operations[id].kind.DisconnectOp?
    ensures OnComplete(s, id, status, reply, nested) ==
      if status < 0 then Finish(RejectOp(s, id, Classified(status)), id)
      else Finish(ResolveOp(WithHandle(s, id), id, Delivered(s, id, status)), id)
  {
    hide RejectOp, ResolveOp, Finish, T.Insert, Touch, RunScript, T.Bounce, T.Abandon, OnConnectComplete,
      OnDisconnectComplete;
  }

  lemma EndsWhatever(s: Wrap, s1: Wrap, t: Wrap, id: OpId, outcome: Outcome)
    requires s1.ledger == s.ledger
    ensures EndsAlone(s1, t, id, outcome) ==> EndsAlone(s, t, id, outcome)
    ensures Ends(s1, t, id, outcome) ==> Ends(s, t, id, outcome)
  {
  }

  lemma RejectedAndFinished(s: Wrap, id: OpId, code: Code)
    requires LedgerInv(s.ledger, {}, s.cleanupRef) && Unsettled(s.ledger, id)
    ensures var t := Finish(RejectOp(s, id, code), id);
      EndsAlone(s, t, id, Rejected(code)) && Ends(s, t, id, Rejected(code))
  {
    hide LedgerInv, Reject, Retire;
    RejectedAndFreed(s.ledger, id, code, s.cleanupRef);
    FinishParts(RejectOp(s, id, code), id);
  }

  lemma CalledLedger(s: Wrap, id: OpId, busy: set<OpId>)
    requires Called(s, id, busy)
    ensures LedgerInv(s.ledger, {}, s.cleanupRef) && s.context.Some?
  {
  }

  /** A connect callback likewise, though its failure tears the connection down. */
  lemma ConnectCompletes(s: Wrap, id: OpId, busy: set<OpId>, status: int, reply: Reply, nested: Script)
    requires Called(s, id, busy) && Unsettled(s.ledger, id) && s.ledger.operations[id].kind.ConnectOp?
    ensures Ends(s, OnComplete(s, id, status, reply, nested), id, Verdict(s, id, status))
    ensures status >= 0 ==> Ready(OnComplete(s, id, status, reply, nested))
  {
    Dispatched(s, id, status, reply, nested);
    hide Called, OnComplete, OnConnectComplete;
    if status < 0 {
      ConnectFails(s, id, busy, status, nested);
    } else {
      ConnectSucceeds(s, id, busy, status, nested);
    }
  }

  /** Every operation gets the callback it was submitted with. */
  lemma Dispatched(s: Wrap, id: OpId, status: int, reply: Reply, nested: Script)
    requires id in s.ledger.operations
    ensures var c := OnComplete(s, id, status, reply, nested);
      && (s.ledger.operations[id].kind.ConnectOp? ==> c == OnConnectComplete(s, id, status, nested))
      && (s.ledger.operations[id].kind.DisconnectOp? ==> c == OnDisconnectComplete(s, id, status, reply))
  {
    hide OnConnectComplete, OnDisconnectComplete, OnStatComplete, OnOpenComplete, OnOpendirComplete, OnRequestComplete;
  }

  lemma ConnectFails(s: Wrap, id: OpId, busy: set<OpId>, status: int, nested: Script)
    requires Called(s, id, busy) && Unsettled(s.ledger, id) && s.ledger.operations[id].kind.ConnectOp? && status < 0
    ensures Ends(s, OnConnectComplete(s, id, status, nested), id, Rejected(Classified(status)))
  {
    CalledLedger(s, id, busy);
    RejectedConnect(s, id, Classified(status), busy);
    hide Called, LedgerInv, RejectOp, Retire, Sound, Routed, AllSettled, CleanupContext, Evolves, Spares;
    var s1 := RejectOp(s, id, Classified(status));
    RejectedOutcome(s.ledger, id, Classified(status), s.cleanupRef);
    assert s1.ledger == Reject(s.ledger, id, Classified(status)) by { RejectOpLedger(s, id, Classified(status)); }
    CleanupEffect(s1, nested);
    RetireFacts(CleanupContext(s1, nested).ledger, id);
    hide Reject;
  }

  lemma RejectOpLedger(s: Wrap, id: OpId, code: Code)
    ensures RejectOp(s, id, code).ledger == Reject(s.ledger, id, code)
  {
  }

  lemma ConnectSucceeds(s: Wrap, id: OpId, busy: set<OpId>, status: int, nested: Script)
    requires Called(s, id, busy) && Unsettled(s.ledger, id) && s.ledger.operations[id].kind.ConnectOp? && status >= 0
    ensures Ends(s, OnConnectComplete(s, id, status, nested), id, Resolved(Connection))
    ensures Ready(OnConnectComplete(s, id, status, nested))
  {
    CalledLedger(s, id, busy);
    hide Called, LedgerInv, ResolveOp, Retire, CleanupContext, Finish;
    var s1 := s.(connected := true, disconnecting := false);
    var t := OnConnectComplete(s, id, status, nested);
    assert t == Finish(ResolveOp(s1, id, Connection), id);
    hide OnConnectComplete;
    ResolvedAndFinished(s1, id, Connection);
  }

  lemma ResolvedAndFinished(s: Wrap, id: OpId, value: Value)
    requires LedgerInv(s.ledger, {}, s.cleanupRef) && Unsettled(s.ledger, id)
    ensures var t := Finish(ResolveOp(s, id, value), id);
      && EndsAlone(s, t, id, Resolved(value)) && Ends(s, t, id, Resolved(value))
      && t.context == s.context && t.connected == s.connected && t.disconnecting == s.disconnecting
  {
    hide LedgerInv, Settle, Retire;
    SettledAndFreed(s.ledger, id, Resolved(value), s.cleanupRef);
    FinishParts(ResolveOp(s, id, value), id);
  }

  lemma FinishParts(s: Wrap, id: OpId)
    ensures var t := Finish(s, id);
      t == s.(ledger := Retire(s.ledger, id), timer := t.timer)
  {
    hide Retire;
  }

  lemma RejectedOutcome(m: Ledger, id: OpId, code: Code, held: bool)
    requires LedgerInv(m, {}, held) && Unsettled(m, id)
    ensures var t := Reject(m, id, code);
      && LedgerInv(t, {}, held)
      && id in t.operations && id in t.promises && t.promises[id].outcomes == [Rejected(code)]
  {
    RejectIsSettle(m, id, code, {}, held);
    SettledOutcome(m, id, Rejected(code), held);
    hide LedgerInv, Reject, Settle;
  }

  lemma SettledOutcome(m: Ledger, id: OpId, outcome: Outcome, held: bool)
    requires LedgerInv(m, {}, held) && Unsettled(m, id)
    ensures var t := Settle(m, id, outcome);
      && LedgerInv(t, {}, held)
      && id in t.operations && id in t.promises && t.promises[id].outcomes == [outcome]
  {
    SettleFacts(m, id, outcome, {}, held);
    Membership(m, {}, held);
    assert [] + [outcome] == [outcome];
    hide LedgerInv;
  }

  /** A disconnect callback too, and whatever is left is rejected and deferred. */
  lemma DisconnectCompletes(s: Wrap, id: OpId, busy: set<OpId>, status: int, reply: Reply, nested: Script)
    requires Called(s, id, busy) && Unsettled(s.ledger, id) && s.ledger.operations[id].kind.DisconnectOp?
    ensures var t := OnComplete(s, id, status, reply, nested);
      && Ends(s, t, id, Verdict(s, id, status))
      && (forall x :: x != id && Unsettled(s.ledger, x) && x in s.ledger.pending ==>
            x in t.ledger.promises && t.ledger.promises[x].outcomes == [Rejected(ConnectionLost)])
      && t.ledger.pending == {} && !t.connected && t.files.entries == map[] && t.dirs.entries == map[]
  {
    hide Called, LedgerInv, Settle, Reject, OnComplete, OnDisconnectComplete, QueueForCleanup, Finish, ScheduleCleanup,
      Disconnected, RejectOp, ResolveOp;
    Dispatched(s, id, status, reply, nested);
    CalledLedger(s, id, busy);
    DisconnectSplit(s, id, status, reply);
    SettledDisconnect(s, id, status);
    var s1 := if status < 0 then RejectOp(s, id, Classified(status)) else ResolveOp(s, id, Undefined);
    EndingOutcome(s1, id, reply);
  }

  /** What OnDisconnectComplete does first. */
  lemma SettledDisconnect(s: Wrap, id: OpId, status: int)
    requires LedgerInv(s.ledger, {}, s.cleanupRef) && Unsettled(s.ledger, id)
    ensures var s1 := if status < 0 then RejectOp(s, id, Classified(status)) else ResolveOp(s, id, Undefined);
      && LedgerInv(s1.ledger, {}, s1.cleanupRef)
      && id in s1.ledger.operations && id in s1.ledger.promises
      && s1.ledger.promises[id].outcomes == [if status < 0 then Rejected(Classified(status)) else Resolved(Undefined)]
      && s1.ledger.pending == s.ledger.pending
      && forall x :: x != id && Unsettled(s.ledger, x) ==> Unsettled(s1.ledger, x)
  {
    hide LedgerInv, Settle, Reject;
    if status < 0 {
      RejectedOutcome(s.ledger, id, Classified(status), s.cleanupRef);
      OthersStay(s.ledger, Reject(s.ledger, id, Classified(status)), id, Rejected(Classified(status)), s.cleanupRef);
    } else {
      SettledOutcome(s.ledger, id, Resolved(Undefined), s.cleanupRef);
      OthersStay(s.ledger, Settle(s.ledger, id, Resolved(Undefined)), id, Resolved(Undefined), s.cleanupRef);
    }
  }

  /** Settling one promise leaves the others as they were. */
  lemma OthersStay(m: Ledger, t: Ledger, id: OpId, outcome: Outcome, held: bool)
    requires LedgerInv(m, {}, held) && Unsettled(m, id)
    requires t == Settle(m, id, outcome) || (outcome.Rejected? && t == Reject(m, id, outcome.code))
    ensures t.pending == m.pending
    ensures forall x :: x != id && Unsettled(m, x) ==> Unsettled(t, x)
  {
  }

  /** What the end of OnDisconnectComplete does to the promises. */
  lemma EndingOutcome(s1: Wrap, id: OpId, reply: Reply)
    requires LedgerInv(s1.ledger, {}, s1.cleanupRef)
    requires id in s1.ledger.operations && id in s1.ledger.promises && s1.ledger.promises[id].outcomes != []
    ensures var t := ScheduleCleanup(Finish(QueueForCleanup(Disconnected(s1), {id}), id), reply);
      && id !in t.ledger.operations
      && id in t.ledger.promises && t.ledger.promises[id].outcomes == s1.ledger.promises[id].outcomes
      && (forall x :: x != id && Unsettled(s1.ledger, x) && x in s1.ledger.pending ==>
            x in t.ledger.promises && t.ledger.promises[x].outcomes == [Rejected(ConnectionLost)])
      && t.ledger.pending == {} && !t.connected && t.files.entries == map[] && t.dirs.entries == map[]
  {
    hide Defer, LedgerInv, OnlyRejects, Finish, QueueForCleanup, ScheduleCleanup, Disconnected;
    DeferFacts(s1.ledger, {id}, s1.cleanupRef);
    DeferredOutcomes(s1.ledger, {id}, s1.cleanupRef);
    EndingLedger(s1, id, reply);
  }

  lemma EndingLedger(s: Wrap, id: OpId, reply: Reply)
    ensures var t := ScheduleCleanup(Finish(QueueForCleanup(Disconnected(s), {id}), id), reply);
      var d := Defer(s.ledger, s.ledger.pending - {id});
      && t.ledger.operations == d.operations - {id} && t.ledger.pending == d.pending - {id}
      && t.ledger.promises == d.promises
      && !t.connected && t.files.entries == map[] && t.dirs.entries == map[]
  {
    hide Defer, Retire, Disconnected, AddRefs;
    var s1 := Disconnected(s);
    DisconnectedParts(s);
    var s2 := QueueForCleanup(s1, {id});
    RetireFacts(s2.ledger, id);
    var s3 := Finish(s2, id);
    ScheduleParts(s3, reply);
  }

  lemma DisconnectedParts(s: Wrap)
    ensures var t := Disconnected(s);
      t.ledger == s.ledger && !t.connected && t.files.entries == map[] && t.dirs.entries == map[]
  {
    hide P.Reset, P.Stop;
  }

  lemma ScheduleParts(s: Wrap, reply: Reply)
    ensures var t := ScheduleCleanup(s, reply);
      && t.ledger == s.ledger.(refs := t.ledger.refs)
      && t.connected == s.connected && t.files == s.files && t.dirs == s.dirs
  {
  }

  /** Everything deferred while still open is rejected. */
  lemma DeferredOutcomes(m: Ledger, keep: set<OpId>, held: bool)
    requires LedgerInv(m, {}, held)
    ensures var t := Defer(m, m.pending - keep);
      && (forall x :: x !in keep && Unsettled(m, x) && x in m.pending ==>
            x in t.promises && t.promises[x].outcomes == [Rejected(ConnectionLost)])
      && (forall x :: x in m.promises && m.promises[x].outcomes != [] ==>
            x in t.promises && t.promises[x].outcomes == m.promises[x].outcomes)
  {
    DeferFacts(m, keep, held);
    var t := Defer(m, m.pending - keep);
    Membership(m, {}, held);
    Membership(t, {}, held);
    forall x | x !in keep && Unsettled(m, x) && x in m.pending
      ensures x in t.promises && t.promises[x].outcomes == [Rejected(ConnectionLost)]
    {
      assert !Unsettled(t, x) && x in t.operations;
      SettledPromise(t, x, held);
    }
    hide Defer, LedgerInv;
  }

  lemma SettledPromise(m: Ledger, id: OpId, held: bool)
    requires LedgerInv(m, {}, held) && id in m.operations && m.operations[id].settled
    ensures id in m.promises && |m.promises[id].outcomes| == 1
  {
  }

  // ---- Calls ------------------------------------------------------------------------------

  /** What a call's promise has come to by the time the call returns. */
  function Standing(s: Wrap, id: OpId): seq<Outcome> {
    Operations.Outcomes(s.ledger, id)
  }

  /** Accepted by libuv and libsmb2: listed, owed a callback, and open. */
  predicate UnderWay(s: Wrap, id: OpId) {
    && id in s.ledger.operations && id in s.ledger.pending && id in s.ledger.outstanding
    && Standing(s, id) == []
  }

  lemma SteadyLedger(s: Wrap)
    requires Steady(s, {})
    ensures LedgerInv(s.ledger, {}, s.cleanupRef)
  {
    SoundLedger(s);
  }

  lemma EnlistedOpen(s: Wrap, kind: Kind, now: nat, path: Text, reply: Reply)
    requires Steady(s, {})
    ensures var t, id := Enlisted(s, kind, now, path, reply), s.ledger.nextId;
      && LedgerInv(t.ledger, {}, t.cleanupRef)
      && id in t.ledger.pending && Unsettled(t.ledger, id) && t.ledger.operations[id].kind == kind
      && Standing(t, id) == []
  {
    hide Steady, LedgerInv, Enrol, Arm, Operations.Outcomes;
    SteadyLedger(s);
    EnrolOpen(s.ledger, kind, now, path, s.cleanupRef);
  }

  lemma EnrolOpen(m: Ledger, kind: Kind, now: nat, path: Text, held: bool)
    requires LedgerInv(m, {}, held)
    ensures var t, id := Enrol(m, kind, now, path), m.nextId;
      && LedgerInv(t, {}, held)
      && id in t.pending && Unsettled(t, id) && t.operations[id].kind == kind
      && Operations.Outcomes(t, id) == []
  {
    hide LedgerInv, Enrol;
    EnrolFacts(m, kind, now, path, held);
    Membership(Enrol(m, kind, now, path), {}, held);
  }

  /** A fatal error rejects what is open. */
  lemma FatalRejects(s: Wrap, script: Script, id: OpId)
    requires Breakable(s) && LedgerInv(s.ledger, {}, s.cleanupRef) && Unsettled(s.ledger, id)
    ensures Standing(HandleFatal(s, script), id) == [Rejected(ConnectionLost)]
  {
    FatalEffect(s, script);
    hide Breakable, LedgerInv, HandleFatal, Wrecked;
    FatalAccounts(s, HandleFatal(s, script), id);
  }

  /** How a request that is accepted stands when its call returns. */
  lemma RequestOutcome(s: Wrap, kind: Kind, path: Text, handle: nat, tooLong: bool,
                       now: nat, reply: Reply, rc: int, script: Script)
    requires Steady(s, {}) && IsRequest(kind) && Acceptable(s, kind, handle, tooLong)
    ensures var t, id := Request(s, kind, path, handle, tooLong, now, reply, rc, script), s.ledger.nextId;
      if !Arms(s.timer, reply) then Standing(t, id) == [Rejected(ConnectionLost)]
      else if rc < 0 then Standing(t, id) == [Rejected(Classified(rc))]
      else UnderWay(t, id)
  {
    hide Steady, AfterRequest, Enlisted, Concluded, UnderWay;
    var armed := Arms(s.timer, reply);
    AfterRequestKeeps(s, kind, handle, armed);
    AcceptableConnected(s, kind, handle, tooLong);
    TableSteady(s, AfterRequest(s, kind, handle, armed));
    var s1 := s.(files := AfterRequest(s, kind, handle, armed));
    var where := if NeedsFile(kind) then s.files.entries[handle].path else path;
    SentOutcome(s1, kind, now, where, reply, rc, script);
  }

  lemma SentOutcome(s: Wrap, kind: Kind, now: nat, path: Text, reply: Reply, rc: int, script: Script)
    requires Steady(s, {}) && Ready(s) && IsRequest(kind)
    ensures var id := s.ledger.nextId;
      var t := Concluded(Enlisted(s, kind, now, path, reply), id, Arms(s.timer, reply), rc, script);
      if !Arms(s.timer, reply) then Standing(t, id) == [Rejected(ConnectionLost)]
      else if rc < 0 then Standing(t, id) == [Rejected(Classified(rc))]
      else UnderWay(t, id)
  {
    hide Steady, Enlisted, LedgerInv, HandleFatal, Called, Finish, Reject, Touch, Breakable;
    var s1, id := Enlisted(s, kind, now, path, reply), s.ledger.nextId;
    EnlistedOpen(s, kind, now, path, reply);
    EnlistedEvolves(s, kind, now, path, reply);
    if !Arms(s.timer, reply) {
      FatalRejects(s1, script, id);
    } else {
      EnlistedCalled(s, kind, now, path, reply);
      CalledTouch(s1, id);
      if rc < 0 {
        RejectedAndFreed(s1.ledger, id, Classified(rc), s1.cleanupRef);
        FinishParts(RejectOp(s1, id, Classified(rc)), id);
        hide Retire;
      }
    }
  }

  lemma CalledTouch(s: Wrap, id: OpId)
    requires Called(s, id, {})
    ensures Touch(s) == s
  {
    AliveIsOld(s, {id});
  }

  /** How a disconnect stands when its call returns. */
  lemma DisconnectOutcome(s: Wrap, now: nat, reply: Reply, rc: int, script: Script)
    requires Steady(s, {})
    ensures var t, id := Disconnect(s, now, reply, rc, script), s.ledger.nextId;
      if !s.connected then Standing(t, id) == [Resolved(Undefined)]
      else if !Arms(s.timer, reply) then Standing(t, id) == [Rejected(ConnectionLost)]
      else if rc < 0 then Standing(t, id) == [Rejected(Classified(rc))]
      else UnderWay(t, id)
  {
    SoundLedger(s);
    if !s.connected {
      hide Steady, LedgerInv;
      StillbornFacts(s.ledger, DisconnectOp, now, [], Resolved(Undefined), s.cleanupRef);
    } else {
      AllRejected(s);
      var s1 := RejectAll(s.(disconnecting := true), ConnectionLost);
      assert s.context.Some?;
      hide Steady, LedgerInv, RejectAll, Enlisted, HandleFatal, CleanupContext, Finish, RejectOp, Touch, UnderWay,
        AllSettled;
      LeavingOutcome(s1, now, reply, rc, script);
    }
  }

  lemma LeavingOutcome(s: Wrap, now: nat, reply: Reply, rc: int, script: Script)
    requires Steady(s, {}) && AllSettled(s.ledger) && s.connected && s.disconnecting
    ensures var s1, id := Enlisted(s, DisconnectOp, now, [], reply), s.ledger.nextId;
      var t := if !Arms(s.timer, reply) then HandleFatal(s1, script)
               else if rc < 0 then Finish(CleanupContext(RejectOp(Touch(s1), id, Classified(rc)), script), id)
               else Owe(Touch(s1), id);
      if !Arms(s.timer, reply) then Standing(t, id) == [Rejected(ConnectionLost)]
      else if rc < 0 then Standing(t, id) == [Rejected(Classified(rc))]
      else UnderWay(t, id)
  {
    var s1, id := Enlisted(s, DisconnectOp, now, [], reply), s.ledger.nextId;
    hide Steady, Enlisted, LedgerInv, HandleFatal, Called, Finish, Reject, Touch, Breakable, AllSettled, CleanupContext;
    EnlistedOpen(s, DisconnectOp, now, [], reply);
    EnlistedEvolves(s, DisconnectOp, now, [], reply);
    LeavingFields(s, now, reply);
    if !Arms(s.timer, reply) {
      FatalRejects(s1, script, id);
    } else {
      LeavingCalled(s, now, reply);
      CalledTouch(s1, id);
      if rc < 0 {
        RefusedOutcome(s1, id, Classified(rc), script);
      }
    }
  }

  lemma RefusedOutcome(s: Wrap, id: OpId, code: Code, script: Script)
    requires Called(s, id, {}) && s.connected && Unsettled(s.ledger, id)
    requires forall x :: x in s.ledger.operations && x != id ==> s.ledger.operations[x].settled
    ensures Standing(Finish(CleanupContext(RejectOp(s, id, code), script), id), id) == [Rejected(code)]
  {
    CalledLedger(s, id, {});
    LeaveRejected(s, id, code);
    hide Called, Sound, Routed, AllSettled, CleanupContext, Evolves, LedgerInv, Reject;
    RejectedOutcome(s.ledger, id, code, s.cleanupRef);
    var s1 := RejectOp(s, id, code);
    CleanupEffect(s1, script);
    FinishParts(CleanupContext(s1, script), id);
    RetireFacts(CleanupContext(s1, script).ledger, id);
    hide Retire, Finish;
  }

  /** How a connect stands when its call returns. */
  lemma ConnectOutcome(s: Wrap, choice: Option<CtxId>, path: Text, now: nat, reply: Reply, rc: int, script: Script)
    requires Steady(s, {}) && s.ledger.nextId == 0
    ensures var t := Connect(s, choice, path, now, reply, rc, script);
      if choice.None? || choice.value in s.shared.live then Standing(t, 0) == [Rejected(NoContext)]
      else if !Arms(s.timer, reply) then Standing(t, 0) == [Rejected(ConnectionLost)]
      else if rc < 0 then Standing(t, 0) == [Rejected(Classified(rc))]
      else UnderWay(t, 0)
  {
    FreshParts(s);
    hide Steady, LedgerInv, Dialling, Finish, RejectOp, CleanupContext, HandleFatal, Touch, Owe, Enlisted, UnderWay,
      Stillborn;
    if choice.None? || choice.value in s.shared.live {
      StillbornFacts(s.ledger, ConnectOp, now, path, Rejected(NoContext), s.cleanupRef);
    } else {
      DialOutcome(s, choice.value, path, now, reply, rc, script);
      DialSplit(s, choice.value, path, now, reply);
    }
  }

  lemma DialSplit(s: Wrap, ctx: CtxId, path: Text, now: nat, reply: Reply)
    requires s.context.None? && ctx !in s.shared.live
    ensures Dialling(s, ctx, path, now, reply) == Enlisted(EnsureContext(s, Some(ctx)), ConnectOp, now, path, reply)
  {
  }

  lemma DialOutcome(s: Wrap, ctx: CtxId, path: Text, now: nat, reply: Reply, rc: int, script: Script)
    requires Steady(s, {}) && s.ledger.nextId == 0 && ctx !in s.shared.live
    ensures var s1 := Dialling(s, ctx, path, now, reply);
      var t := if !Arms(s.timer, reply) then HandleFatal(s1, script)
               else if rc < 0 then CleanupContext(Finish(RejectOp(Touch(s1), 0, Classified(rc)), 0), script)
               else Owe(Touch(s1), 0);
      if !Arms(s.timer, reply) then Standing(t, 0) == [Rejected(ConnectionLost)]
      else if rc < 0 then Standing(t, 0) == [Rejected(Classified(rc))]
      else UnderWay(t, 0)
  {
    DiallingSound(s, ctx, path, now, reply);
    DiallingFields(s, ctx, path, now, reply);
    var s1 := Dialling(s, ctx, path, now, reply);
    hide Steady, Dialling, LedgerInv, HandleFatal, Called, Finish, Reject, Touch, Breakable, CleanupContext, Remembers,
      NoNewSuccess;
    Membership(s1.ledger, {}, s1.cleanupRef);
    if !Arms(s.timer, reply) {
      FatalRejects(s1, script, 0);
    } else {
      DiallingCalled(s, ctx, path, now, reply);
      CalledTouch(s1, 0);
      if rc < 0 {
        DialRefusedOutcome(s1, Classified(rc), script);
      }
    }
  }

  lemma DialRefusedOutcome(s: Wrap, code: Code, script: Script)
    requires Called(s, 0, {}) && Unsettled(s.ledger, 0) && s.ledger.operations[0].kind.ConnectOp?
    requires Rank(s) == CONNECTING
    ensures Standing(CleanupContext(Finish(RejectOp(s, 0, code), 0), script), 0) == [Rejected(code)]
  {
    CalledLedger(s, 0, {});
    RejectedConnect(s, 0, code, {});
    var s1 := RejectOp(s, 0, code);
    hide Called, Sound, Routed, AllSettled, CleanupContext, Evolves, LedgerInv, Reject, Spares;
    FinishSound(s1, 0);
    FinishedConnect(s1, 0);
    RejectedAndFreed(s.ledger, 0, code, s.cleanupRef);
    FinishParts(s1, 0);
    CleanupEffect(Finish(s1, 0), script);
    hide Retire, Finish;
  }

  // ---- Errors from below ------------------------------------------------------------------

  /** Nothing is left of the connection, and every promise it ever made is settled. */
  ghost predicate Gone(t: Wrap) {
    && t.ledger.operations == map[] && t.context == None && t.link.poll == None
    && forall op :: op in t.ledger.promises ==> |t.ledger.promises[op].outcomes| == 1
  }

  lemma WreckedIsGone(s: Wrap, t: Wrap)
    requires Wrecked(s, t)
    ensures Gone(t)
  {
    SteadyLedger(t);
    hide Steady, OnlyRejects;
  }

  /** A failing service of the socket, from the timer or from the poll, and a failing poll are
      fatal, whatever libsmb2 had fired before it failed. */
  lemma FailureIsFatal(s: Wrap, e: Event)
    requires Steady(s, {}) && s.context.Some? && Possible(s, e)
    requires (e.TimerFires? && s.timer.mode.Tick? && !s.cleanupPending && e.rc < 0)
          || (e.PollFires? && (e.status < 0 || ((e.readable || e.writable) && e.rc < 0)))
    ensures Gone(Step(s, e))
  {
    hide Steady, RunScript, HandleFatal, Evolves, Breakable, Wrecked, Gone, Touch;
    AliveIsOld(s, {});
    if e.PollFires? && e.status < 0 {
      SteadyBreakable(s, {});
      FatalEffect(s, e.teardown);
      WreckedIsGone(s, HandleFatal(s, e.teardown));
    } else {
      ServiceKeeps(s, e.script);
      var s1 := RunScript(Touch(s), s.context.value, e.script, false);
      AgeKept(s, s1);
      SteadyBreakable(s1, {});
      FatalEffect(s1, e.teardown);
      WreckedIsGone(s1, HandleFatal(s1, e.teardown));
    }
  }

  lemma AgeKept(s: Wrap, t: Wrap)
    requires Kept(s, t) && s.ledger.nextId > 0
    ensures Steady(t, {}) && t.ledger.nextId > 0
  {
    hide Steady;
    EvolvesAge(s, t);
  }
}
