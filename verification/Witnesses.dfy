/**
 Runs that reach what the other results speak of: a ready connection, and each of the states in
 which the code falls short.  One connection, whose state after each step is written out.
 */
module Witnesses {
  import opened Options
  import opened Texts
  import opened Operations
  import opened Lifecycle
  import opened Invariants
  import opened Steps
  import opened World
  import opened Teardown
  import opened Theorems
  import opened Leftovers
  import opened Outcomes
  import opened Handles
  import T = HandleTable
  import P = PollLink

  /** The world in which connection 0 is the only one. */
  function Solo(s: Wrap): World {
    World(s.shared, map[0 := s])
  }

  lemma SoloStep(s: Wrap, e: Event)
    requires Reachable(Solo(s))
    ensures Reachable(Solo(Step(s, e))) && Steady(s, {})
    ensures Next(Solo(s), Enter(0, e)) == Solo(Step(s, e))
  {
    hide Step, Steady, Reachable;
    ReachableSteady(Solo(s), 0);
    ReachableNext(Solo(s), Enter(0, e));
    assert Focus(Solo(s), 0) == s;
    assert map[0 := s][0 := Step(s, e)] == map[0 := Step(s, e)];
  }

  // ---- A ready connection -----------------------------------------------------------------

  const HELD := Shared(map[0 := 0], {0})

  const FRESH := NewWrap(0, Shared(map[], {}))

  const DIAL := DoConnect(Some(0), [], 0, Accepted, 0, [])

  const DIALLED := FRESH.(
    shared := HELD, context := Some(0), timer := Timer(true, Tick),
    ledger := Ledger(map[0 := Operation(ConnectOp, false, 0, [])], map[0 := Promise(ConnectOp, [])], 1, {0},
                     multiset{}, {0}, multiset{}, {0}, 1, {}))

  const ANSWER := TimerFires([Complete(0, 0, Accepted, [])], 0, [])

  const CONNECTED := Ledger(map[], map[0 := Promise(ConnectOp, [Resolved(Connection)])], 1, {0},
                            multiset{0}, {}, multiset{}, {}, 0, {})

  const READY := DIALLED.(connected := true, timer := Timer(true, Off), ledger := CONNECTED)

  lemma FreshIsReachable()
    ensures Reachable(Solo(FRESH))
  {
    var actions := [Construct(0)];
    assert actions[1..] == [];
    assert Run(EMPTY_WORLD, actions) == Next(EMPTY_WORLD, actions[0]);
    assert Next(EMPTY_WORLD, actions[0]) == Solo(FRESH);
  }

  lemma Dials()
    ensures Step(FRESH, DIAL) == DIALLED
  {
    var s := EnsureContext(FRESH, Some(0));
    assert s == FRESH.(shared := HELD, context := Some(0));
    DialLedger();
    hide EnsureContext, Enrol, Submitted, HandleFatal, CleanupContext, Finish, RejectOp, Stillborn;
  }

  lemma DialLedger()
    ensures Submitted(Enrol(FRESH.ledger, ConnectOp, 0, []), 0) == DIALLED.ledger
  {
  }

  /** A script of one callback. */
  lemma OneCompletion(s: Wrap, ctx: CtxId, op: OpId, status: int)
    requires op in s.ledger.outstanding
    ensures RunScript(s, ctx, [Complete(op, status, Accepted, [])], false)
         == OnComplete(s.(ledger := Fired(s.ledger, op)), op, status, Accepted, [])
  {
    hide OnComplete;
    var act := Complete(op, status, Accepted, []);
    assert [act][1..] == [] && [act][0] == act;
    assert RunScript(s, ctx, [act], false) == RunScript(RunAct(s, ctx, act, false), ctx, [], false);
  }

  lemma Connects()
    ensures Step(DIALLED, ANSWER) == READY
  {
    OneCompletion(DIALLED, 0, 0, 0);
    assert Touch(DIALLED) == DIALLED;
    hide RunScript;
    var s := DIALLED.(ledger := Fired(DIALLED.ledger, 0));
    assert s.ledger.outstanding == {};
    var settled := Settle(s.ledger, 0, Resolved(Connection));
    assert [] + [Resolved(Connection)] == [Resolved(Connection)];
    assert settled.promises == CONNECTED.promises;
    assert Retire(settled, 0) == CONNECTED;
    assert OnComplete(s, 0, 0, Accepted, []) == READY;
  }

  /** A connection can become ready. */
  lemma ReadyIsReachable()
    ensures Reachable(Solo(READY)) && Ready(READY)
  {
    FreshIsReachable();
    SoloStep(FRESH, DIAL);
    Dials();
    SoloStep(DIALLED, ANSWER);
    Connects();
    hide Reachable, Step;
  }

  /** The destructor of a ready connection that nothing references frees a wrapper whose timer handle
      the event loop still has. */
  lemma DestructorLeavesTimerHandle()
    ensures Reachable(Solo(READY)) && READY.ledger.refs == 0
    ensures Finalize(READY, []).timer == Timer(true, Off)
  {
    ReadyIsReachable();
    hide Finalize, Reachable;
    DestructorKeepsTimerHandle(Solo(READY), 0, []);
    DestructorLeavesNothing(Solo(READY), 0, []);
  }

  // ---- A request that returns the promise of a freed operation ----------------------------

  const UNTIMED := DoRequest(StatOp, [], 0, false, 0, StartFails, 0, [])

  /** With a timer that does not start, Stat returns a promise out of an operation that is gone. */
  lemma RequestReturnsFreedOperation()
    ensures Reachable(Solo(READY)) && Reachable(Next(Solo(READY), Enter(0, UNTIMED)))
    ensures var m := Step(READY, UNTIMED).ledger;
      && Next(Solo(READY), Enter(0, UNTIMED)) == Solo(Step(READY, UNTIMED))
      && READY.ledger.nextId in m.promises && READY.ledger.nextId !in m.operations
      && m.promises[READY.ledger.nextId].outcomes == [Rejected(ConnectionLost)]
  {
    ReadyIsReachable();
    SoloStep(READY, UNTIMED);
    UntimedIsRequest();
    hide Reachable, Step, Request, Steady;
    RequestReturnsLiveOperation(READY, StatOp, [], 0, false, 0, StartFails, 0, []);
    RequestOutcome(READY, StatOp, [], 0, false, 0, StartFails, 0, []);
  }

  lemma UntimedIsRequest()
    ensures Step(READY, UNTIMED) == Request(READY, StatOp, [], 0, false, 0, StartFails, 0, [])
    ensures Acceptable(READY, StatOp, 0, false) && !Arms(READY.timer, StartFails)
  {
    hide Request;
  }

  // ---- A refused disconnect that leaves an operation allocated -----------------------------

  const STAT := DoRequest(StatOp, [], 0, false, 0, Accepted, 0, [])

  const BUSY := READY.(
    timer := Timer(true, Tick),
    ledger := Ledger(map[1 := Operation(StatOp, false, 0, [])],
                     map[0 := Promise(ConnectOp, [Resolved(Connection)]), 1 := Promise(StatOp, [])], 2, {0, 1},
                     multiset{0}, {1}, multiset{}, {1}, 1, {}))

  lemma Stats()
    ensures Step(READY, STAT) == BUSY
  {
    StatLedger();
    hide Enrol, Submitted, HandleFatal, Reject, Retire;
  }

  lemma StatLedger()
    ensures Submitted(Enrol(CONNECTED, StatOp, 0, []), 1) == BUSY.ledger
  {
    assert Enrol(CONNECTED, StatOp, 0, []).promises == BUSY.ledger.promises;
  }

  lemma BusyIsReachable()
    ensures Reachable(Solo(BUSY))
  {
    ReadyIsReachable();
    SoloStep(READY, STAT);
    Stats();
    hide Reachable, Step;
  }

  const REFUSED := DoDisconnect(0, Accepted, -1, [])

  /** A disconnect that libsmb2 refuses, while a stat is outstanding that the dying context does not
      call back: the operation stays allocated and the wrapper is never collected. */
  lemma RefusedDisconnectLeaks()
    ensures Reachable(Solo(BUSY)) && Reachable(Next(Solo(BUSY), Enter(0, REFUSED)))
    ensures var n := Next(Solo(BUSY), Enter(0, REFUSED));
      && n == Solo(Step(BUSY, REFUSED))
      && Step(BUSY, REFUSED).ledger.operations.Keys == {1} && Step(BUSY, REFUSED).ledger.refs == 1
      && !Collectable(n, 0)
  {
    BusyIsReachable();
    hide Reachable, Step, Steady, Collectable, Next;
    RefusalLeaks(BUSY, 1);
  }

  lemma RefusalLeaks(s: Wrap, op: OpId)
    requires Reachable(Solo(s)) && s.connected && Arms(s.timer, Accepted) && s.ledger.outstanding == {op}
    ensures Reachable(Next(Solo(s), Enter(0, REFUSED))) && Next(Solo(s), Enter(0, REFUSED)) == Solo(Step(s, REFUSED))
    ensures Step(s, REFUSED).ledger.operations.Keys == {op} && Step(s, REFUSED).ledger.refs == 1
    ensures !Collectable(Next(Solo(s), Enter(0, REFUSED)), 0)
  {
    assert Step(s, REFUSED) == Disconnect(s, 0, Accepted, -1, []) by { hide Disconnect; }
    hide Reachable, Step, Disconnect, Steady, Collectable, Next;
    SoloStep(s, REFUSED);
    assert FiredBy([]) == {} && !Disconnects(s.ledger, FiredBy([]));
    RefusedDisconnectLeaves(s, 0, Accepted, -1, []);
    RefusedDisconnectCollectable(Solo(s), 0, 0, Accepted, -1, []);
    assert {op} - {} == {op} && |{op}| == 1 && op !in FiredBy([]);
  }

  // ---- A disconnect that completes --------------------------------------------------------

  const ASK := MaskMoves(0, 1, Accepted, [])

  const ASKED := READY.(link := P.Link(None, 1, 1, false, 0, {}, multiset{}))

  const LEAVE := DoDisconnect(0, Accepted, 0, [])

  const LEAVING := ASKED.(
    disconnecting := true, timer := Timer(true, Tick),
    ledger := Ledger(map[1 := Operation(DisconnectOp, false, 0, [])],
                     map[0 := Promise(ConnectOp, [Resolved(Connection)]), 1 := Promise(DisconnectOp, [])], 2, {0, 1},
                     multiset{0}, {1}, multiset{}, {1}, 1, {}))

  lemma Asks()
    ensures Step(READY, ASK) == ASKED
  {
  }

  lemma StartsLeaving()
    ensures Step(ASKED, LEAVE) == LEAVING
  {
    RejectNone(CONNECTED, ConnectionLost);
    var s1 := ASKED.(disconnecting := true);
    assert RejectAll(s1, ConnectionLost) == s1;
    hide RejectEach;
    LeaveLedger();
    hide Enrol, Submitted, HandleFatal, CleanupContext, RejectAll, Reject, Retire;
  }

  lemma LeaveLedger()
    ensures Submitted(Enrol(CONNECTED, DisconnectOp, 0, []), 1) == LEAVING.ledger
  {
    assert Enrol(CONNECTED, DisconnectOp, 0, []).promises == LEAVING.ledger.promises;
  }

  lemma LeavingIsReachable()
    ensures Reachable(Solo(LEAVING)) && Steady(LEAVING, {})
  {
    ReadyIsReachable();
    SoloStep(READY, ASK);
    Asks();
    SoloStep(ASKED, LEAVE);
    StartsLeaving();
    SoloStep(LEAVING, LEAVE);
    hide Reachable, Step, Steady;
  }

  const PARTING: Script := [Complete(1, 0, Accepted, [])]

  /** The connection once its disconnect has been called back. */
  function Parted(): Wrap
  {
    OnDisconnectComplete(LEAVING.(ledger := Fired(LEAVING.ledger, 1)), 1, 0, Accepted)
  }

  lemma CallsBack()
    ensures RunScript(LEAVING, 0, PARTING, false) == Parted() && Touch(LEAVING) == LEAVING
    ensures Parted().cleanupRef && Parted().context == Some(0)
    ensures Called(LEAVING.(ledger := Fired(LEAVING.ledger, 1)), 1, {})
    ensures Steady(Parted(), {})
  {
    hide Reachable, Steady, Called, OnDisconnectComplete, RunScript, OnComplete, Kept, Evolves;
    LeavingIsReachable();
    CalledBackOnce(LEAVING, 0, 1);
  }

  lemma CalledBackOnce(s: Wrap, ctx: CtxId, id: OpId)
    requires Steady(s, {}) && s.context == Some(ctx) && id in s.ledger.outstanding && IsDisconnect(s.ledger, id)
    ensures var fired := s.(ledger := Fired(s.ledger, id));
      var t := OnDisconnectComplete(fired, id, 0, Accepted);
      && RunScript(s, ctx, [Complete(id, 0, Accepted, [])], false) == t && Touch(s) == s
      && t.cleanupRef && t.context == Some(ctx) && Called(fired, id, {}) && Steady(t, {})
  {
    hide Reachable, Steady, Called, OnDisconnectComplete, RunScript, OnComplete, Kept, Evolves;
    AliveIsOld(s, {});
    var fired := s.(ledger := Fired(s.ledger, id));
    FiredCalled(s, ctx, id, {});
    ServiceKeeps(s, [Complete(id, 0, Accepted, [])]);
    OneCompletion(s, ctx, id, 0);
    Dispatch(fired, id, 0, Accepted, []);
    EndingHolds(fired, id, 0);
    KeptSteady(s, OnDisconnectComplete(fired, id, 0, Accepted));
  }

  lemma KeptSteady(s: Wrap, t: Wrap)
    requires Kept(s, t)
    ensures Steady(t, {})
  {
  }

  lemma EndingHolds(s: Wrap, id: OpId, status: int)
    requires id in s.ledger.operations
    ensures var t := OnDisconnectComplete(s, id, status, Accepted); t.cleanupRef && t.context == s.context
  {
    hide Reject, Settle, Defer, Retire, T.Clear, P.Reset, P.Stop, AddRefs;
  }

  // ---- A handle that nobody closes --------------------------------------------------------

  const OPEN := DoRequest(OpenOp, [], 0, false, 0, Accepted, 0, [])

  const OPENING := BUSY.(ledger := BUSY.ledger.(
    operations := map[1 := Operation(OpenOp, false, 0, [])],
    promises := map[0 := Promise(ConnectOp, [Resolved(Connection)]), 1 := Promise(OpenOp, [])]))

  const DELIVER := TimerFires([Complete(1, 0, Accepted, [])], 0, [])

  const OPENED := READY.(
    files := T.Insert(T.EMPTY, []),
    ledger := Ledger(map[], map[0 := Promise(ConnectOp, [Resolved(Connection)]),
                                1 := Promise(OpenOp, [Resolved(Number(1))])],
                     2, {0, 1}, multiset{0, 1}, {}, multiset{}, {}, 0, {}))

  const CLOSING := OPENED.(
    disconnecting := true, timer := Timer(true, Tick),
    ledger := Ledger(map[2 := Operation(DisconnectOp, false, 0, [])],
                     OPENED.ledger.promises[2 := Promise(DisconnectOp, [])], 3, {0, 1, 2},
                     multiset{0, 1}, {2}, multiset{}, {2}, 1, {}))

  const CLOSE := TimerFires([Complete(2, 0, Accepted, [])], 0, [])

  lemma Opens()
    ensures Step(READY, OPEN) == OPENING
  {
    OpenLedger();
    hide Enrol, Submitted, HandleFatal, Reject, Retire;
  }

  lemma OpenLedger()
    ensures Submitted(Enrol(CONNECTED, OpenOp, 0, []), 1) == OPENING.ledger
  {
    assert Enrol(CONNECTED, OpenOp, 0, []).promises == OPENING.ledger.promises;
  }

  lemma Opened()
    ensures Step(OPENING, DELIVER) == OPENED
  {
    OneCompletion(OPENING, 0, 1, 0);
    assert Touch(OPENING) == OPENING;
    hide RunScript;
    var s := OPENING.(ledger := Fired(OPENING.ledger, 1));
    assert s.ledger.outstanding == {};
    var settled := Settle(s.ledger, 1, Resolved(Number(1)));
    assert [] + [Resolved(Number(1))] == [Resolved(Number(1))];
    assert settled.promises == OPENED.ledger.promises;
    assert Retire(settled, 1) == OPENED.ledger;
    hide T.Insert;
    assert OnComplete(s, 1, 0, Accepted, []) == OnOpenComplete(s, 1, 0, []);
  }

  lemma Closes()
    ensures Step(OPENED, LEAVE) == CLOSING
  {
    RejectNone(OPENED.ledger, ConnectionLost);
    var s1 := OPENED.(disconnecting := true);
    assert RejectAll(s1, ConnectionLost) == s1;
    CloseLedger();
    hide RejectEach, T.Insert, Enrol, Submitted, HandleFatal, CleanupContext, RejectAll, Reject, Retire;
  }

  lemma CloseLedger()
    ensures Submitted(Enrol(OPENED.ledger, DisconnectOp, 0, []), 2) == CLOSING.ledger
  {
    assert Enrol(OPENED.ledger, DisconnectOp, 0, []).promises == CLOSING.ledger.promises;
  }

  lemma ClosingIsReachable()
    ensures Reachable(Solo(CLOSING)) && Steady(CLOSING, {})
  {
    ReadyIsReachable();
    SoloStep(READY, OPEN);
    Opens();
    SoloStep(OPENING, DELIVER);
    Opened();
    SoloStep(OPENED, LEAVE);
    Closes();
    SoloStep(CLOSING, CLOSE);
    hide *;
  }

  lemma SaysFarewell()
    ensures var s := CLOSING.(ledger := Fired(CLOSING.ledger, 2));
      2 in s.ledger.operations && Step(CLOSING, CLOSE) == OnDisconnectComplete(s, 2, 0, Accepted)
  {
    ClosingIsReachable();
    hide Reachable, Steady, RunScript, OnDisconnectComplete, Called;
    CalledBackOnce(CLOSING, 0, 2);
  }

  /** Open a file, disconnect without closing it: the handle is in no table and in no close call. */
  lemma OpenFileIsDropped()
    ensures var t := Step(CLOSING, CLOSE);
      && Reachable(Solo(t))
      && OPENED.files.entries[1].native == 0
      && t.files.entries == map[] && T.WasDropped(t.files, 0) && t.files.handed[0] == 0
  {
    ClosingIsReachable();
    SoloStep(CLOSING, CLOSE);
    SaysFarewell();
    DisconnectClears(CLOSING.(ledger := Fired(CLOSING.ledger, 2)), 2, 0, Accepted);
    hide Reachable, Steady, OnDisconnectComplete, Step, Fired;
    InsertedThenCleared(CLOSING.files);
  }

  lemma InsertedThenCleared(t: T.Table)
    requires t == T.Insert(T.EMPTY, [])
    ensures 1 in t.entries && t.entries[1].native == 0
    ensures T.Clear(t).entries == map[] && T.WasDropped(T.Clear(t), 0) && T.Clear(t).handed[0] == 0
  {
  }

  // ---- A deaf poll ------------------------------------------------------------------------

  const GOODBYE := TimerFires(PARTING, 0, [])

  const REOPENED := FdMoves(0, 7, true, Accepted, [])

  /** A connection in whose poll libuv watches nothing while libsmb2 has asked to read. */
  lemma DeafPollIsReachable()
    ensures var t := Step(Parted(), REOPENED);
      && Reachable(Solo(t))
      && t.link.poll.Some? && t.link.requested == 1
      && t.link.poll.value.watched == P.NOTHING && P.Translate(t.link.requested) != P.NOTHING
  {
    LeavingIsReachable();
    CallsBack();
    SaysGoodbye();
    SoloStep(LEAVING, GOODBYE);
    SoloStep(Parted(), REOPENED);
    hide Reachable, Steady, RunScript, OnDisconnectComplete, Called, Parted;
    Reopens();
  }

  lemma SaysGoodbye()
    ensures Step(LEAVING, GOODBYE) == Parted()
  {
    CallsBack();
    hide RunScript, OnDisconnectComplete, Called, Steady, Parted;
  }

  lemma Reopens()
    ensures var t := Step(Parted(), REOPENED);
      && t.link.poll.Some? && t.link.requested == 1 && t.link.poll.value.watched == P.NOTHING
  {
    CallsBack();
    var s := LEAVING.(ledger := Fired(LEAVING.ledger, 1));
    PollForgetsAfterDisconnect(s, 1, {}, 0, Accepted, 0, 7);
    AliveIsOld(Parted(), {});
    AcceptsFd(Parted(), 0, 7);
    hide OnDisconnectComplete, Called, Steady;
  }

  lemma AcceptsFd(s: Wrap, ctx: CtxId, fd: int)
    requires RoutesHere(s, ctx)
    ensures Step(s, FdMoves(ctx, fd, true, Accepted, [])) == OnFdChanged(s, ctx, fd, true)
  {
    assert s.(link := s.link) == s;
  }

  // ---- A wrapper that is never collected --------------------------------------------------

  const CRASH := TimerFires(PARTING, -1, [])

  /** libsmb2 calls the disconnect back and then fails: the cleanup just scheduled is cancelled, the
      reference taken for it is not dropped, and nobody will ever collect the wrapper. */
  lemma CancelledCleanupLeaks()
    ensures var t := Step(LEAVING, CRASH);
      && Reachable(Solo(t))
      && t.context == None && t.ledger.operations == map[]
      && t.cleanupRef && !t.cleanupPending && t.ledger.refs == 1 && t.timer.mode == Off
      && !Collectable(Solo(t), 0)
  {
    LeavingIsReachable();
    CallsBack();
    Crashes();
    SoloStep(LEAVING, CRASH);
    hide Reachable, Steady, OnDisconnectComplete, Called, Parted, Step, HandleFatal, Collectable, RunScript;
    assert FiredBy([]) == {} && !Disconnects(Parted().ledger, FiredBy([]));
    FatalKeepsReference(Parted(), []);
    DeadIsCollectable(Solo(HandleFatal(Parted(), [])), 0);
  }

  lemma Crashes()
    ensures Step(LEAVING, CRASH) == HandleFatal(Parted(), [])
  {
    CallsBack();
    hide RunScript, OnDisconnectComplete, Called, Steady, HandleFatal, Parted;
  }
}
