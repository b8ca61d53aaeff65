/**
 The life of one `SmbConnectionWrap`: every member function as a transition of its state.

 libsmb2 and libuv are an adversary.  Whatever happens while the code is inside a libsmb2 call
 (servicing the socket, closing a file synchronously, destroying the context) is a script, a
 tree of callbacks chosen by the adversary; entries the library could not fire are skipped.
 */
module Lifecycle {
  import opened Options
  import opened Texts
  import opened Operations
  import T = HandleTable
  import P = PollLink
  import Paths

  type WrapId = nat
  type CtxId = nat

  // ---- The state --------------------------------------------------------------------------

  /** What all connections share: the static registry `contexts_` and the live contexts. */
  datatype Shared = Shared(contexts: map<CtxId, WrapId>, live: set<CtxId>)

  datatype TimerMode = Off | Tick | OneShot

  datatype Timer = Timer(initialized: bool, mode: TimerMode)

  /** Misuse of a context. */
  datatype ContextFault = DeadContextUsed | DestroyedTwice | UnsettledAtDestroy | LoudTeardown | Misrouted

  datatype Wrap = Wrap(
    self: WrapId,
    shared: Shared,
    context: Option<CtxId>,
    connected: bool,
    disconnecting: bool,
    timer: Timer,
    cleanupPending: bool,    // cleanup_context_pending_
    cleanupRef: bool,        // cleanup_ref_held_
    scheduleFailed: bool,    // a deferred cleanup could not be scheduled
    ledger: Ledger,
    files: T.Table,
    dirs: T.Table,
    link: P.Link,
    faults: set<ContextFault>)

  function NewWrap(self: WrapId, shared: Shared): Wrap {
    Wrap(self, shared, None, false, false, Timer(false, Off), false, false, false,
         EMPTY, T.EMPTY, T.EMPTY, P.IDLE, {})
  }

  predicate Ready(s: Wrap) {
    s.context.Some? && s.connected && !s.disconnecting
  }

  predicate Closing(s: Wrap) {
    s.context.None? || s.disconnecting
  }

  // ---- The adversary ----------------------------------------------------------------------

  /** One thing libsmb2 does while it has control: complete an operation (which may hand
      control back to libsmb2, where `nested` happens, or ask libuv for a timer, which gets
      `reply`), or report a descriptor or a mask. */
  datatype Act =
    | Complete(op: OpId, status: int, reply: Reply, nested: seq<Act>)
    | FdChanged(fd: int, add: bool)
    | EventsChanged(mask: int)

  type Script = seq<Act>

  /** How libuv answers a request to start a timer or a poll. */
  datatype Reply = Accepted | NoLoop | InitFails | StartFails

  // ---- Timer ------------------------------------------------------------------------------

  predicate CanInitialize(t: Timer, reply: Reply) {
    !reply.NoLoop? && (t.initialized || !reply.InitFails?)
  }

  function Arm(t: Timer, mode: TimerMode, reply: Reply): Timer {
    if !CanInitialize(t, reply) then t
    else if reply.StartFails? then t.(initialized := true)
    else Timer(true, mode)
  }

  predicate Arms(t: Timer, reply: Reply) {
    CanInitialize(t, reply) && !reply.StartFails?
  }

  /** StopServiceTimer. */
  function Stopped(t: Timer): Timer {
    if t.initialized then t.(mode := Off) else t
  }

  /** The timer once the operations are `m`: stopped if nothing is pending and no cleanup is. */
  function IdleTimer(s: Wrap, m: Ledger): Timer {
    if m.pending == {} && !s.cleanupPending then Stopped(s.timer) else s.timer
  }

  /** ScheduleDeferredCleanup; when the timer cannot start, everything it took is given back. */
  function ScheduleCleanup(s: Wrap, reply: Reply): Wrap {
    if !CanInitialize(s.timer, reply) then s.(scheduleFailed := true)
    else
      var ok := Arms(s.timer, reply);
      s.(timer := Arm(s.timer, OneShot, reply),
         cleanupPending := ok,
         cleanupRef := ok,
         scheduleFailed := s.scheduleFailed || !ok,
         ledger := AddRefs(s.ledger, (if ok then 1 else 0) - (if s.cleanupRef then 1 else 0)))
  }

  // ---- Settling and retiring operations ---------------------------------------------------

  /** FinishPending. */
  function Finish(s: Wrap, id: OpId): Wrap {
    var m := Retire(s.ledger, id);
    s.(ledger := m, timer := IdleTimer(s, m))
  }

  function RejectOp(s: Wrap, id: OpId, code: Code): Wrap {
    s.(ledger := Reject(s.ledger, id, code))
  }

  function ResolveOp(s: Wrap, id: OpId, value: Value): Wrap {
    s.(ledger := Settle(s.ledger, id, Resolved(value)))
  }

  function RejectAll(s: Wrap, code: Code): Wrap {
    s.(ledger := RejectEach(s.ledger, s.ledger.pending, code))
  }

  /** QueuePendingForCleanup. */
  function QueueForCleanup(s: Wrap, keep: set<OpId>): Wrap {
    var m := Defer(s.ledger, s.ledger.pending - keep);
    s.(ledger := m, timer := IdleTimer(s, m))
  }

  function DrainDeferred(s: Wrap): Wrap {
    s.(ledger := Drain(s.ledger))
  }

  // ---- libsmb2 in control -----------------------------------------------------------------

  /** What libsmb2 does between being called on context `ctx` and returning. */
  function RunScript(s: Wrap, ctx: CtxId, script: Script, dying: bool): Wrap
    decreases script, 0
  {
    if script == [] then s
    else RunScript(RunAct(s, ctx, script[0], dying), ctx, script[1..], dying)
  }

  /** While libsmb2 destroys a context an open delivers no handle; that apart, operations complete
      with any status. */
  function DyingStatus(known: map<OpId, Operation>, op: OpId, status: int): int {
    if op in known && Delivers(known[op].kind) && status == 0 then -1 else status
  }

  predicate Delivers(kind: Kind) {
    kind.OpenOp? || kind.OpendirOp?
  }

  function RunAct(s: Wrap, ctx: CtxId, act: Act, dying: bool): Wrap
    decreases act
  {
    match act
    case Complete(op, status, reply, nested) =>
      if op !in s.ledger.outstanding then s
      else
        var reported := if dying then DyingStatus(s.ledger.operations, op, status) else status;
        OnComplete(s.(ledger := Fired(s.ledger, op)), op, reported, reply, nested)
    case FdChanged(fd, add) =>
      OnFdChanged(s, ctx, fd, add)
    case EventsChanged(mask) =>
      OnEventsChanged(s, ctx, mask)
  }

  predicate RoutesHere(s: Wrap, ctx: CtxId) {
    ctx in s.shared.contexts && s.shared.contexts[ctx] == s.self
  }

  /** A context in the registry under another connection's name. */
  function Misroute(s: Wrap, ctx: CtxId): Wrap {
    if ctx in s.shared.contexts then s.(faults := s.faults + {Misrouted}) else s
  }

  /** OnFdChanged, libuv accepting. */
  function OnFdChanged(s: Wrap, ctx: CtxId, fd: int, add: bool): Wrap {
    if !RoutesHere(s, ctx) then Misroute(s, ctx)
    else s.(link := if add then P.Start(s.link, fd) else P.Stop(s.link))
  }

  /** OnEventsChanged, libuv accepting. */
  function OnEventsChanged(s: Wrap, ctx: CtxId, mask: int): Wrap {
    if !RoutesHere(s, ctx) then Misroute(s, ctx)
    else s.(link := P.Apply(P.Ask(s.link, mask)))
  }

  /** Every libsmb2 call needs a live context. */
  function Touch(s: Wrap): Wrap {
    if s.context.Some? && s.context.value in s.shared.live then s
    else s.(faults := s.faults + {DeadContextUsed})
  }

  // ---- Teardown ---------------------------------------------------------------------------

  predicate CleanDestroy(s: Wrap) {
    forall id :: id in s.ledger.outstanding ==> id in s.ledger.operations && s.ledger.operations[id].settled
  }

  /** What a teardown's callbacks must leave alone: promises, deliveries, the poll and the registry;
      and they must not connect the wrapper. */
  predicate Quiet(s: Wrap, t: Wrap) {
    && t.ledger.promises == s.ledger.promises
    && t.files.delivered == s.files.delivered && t.dirs.delivered == s.dirs.delivered
    && (t.connected ==> s.connected)
    && t.link.poll == s.link.poll
    && t.shared.contexts == s.shared.contexts
  }

  /** What is wrong with destroying the context now. */
  function Marked(s: Wrap, ctx: CtxId): Wrap {
    s.(faults := s.faults
      + (if ctx in s.shared.live then {} else {DestroyedTwice})
      + (if CleanDestroy(s) then {} else {UnsettledAtDestroy}))
  }

  /** libsmb2 has destroyed the context, and on the way turned `s` into `t`. */
  function Destroyed(s: Wrap, t: Wrap, ctx: CtxId): Wrap {
    t.(faults := t.faults + (if Quiet(s, t) then {} else {LoudTeardown}),
       ledger := Silence(t.ledger),
       shared := t.shared.(live := t.shared.live - {ctx}))
  }

  /** smb2_destroy_context. */
  function Destroy(s: Wrap, ctx: CtxId, script: Script): Wrap
    decreases script, 1
  {
    Destroyed(s, RunScript(Marked(s, ctx), ctx, script, true), ctx)
  }

  /** CleanupContext up to the point where the context is destroyed: the registry forgets it
      first, so that it routes to nobody while it dies. */
  function Dismantle(s: Wrap): Wrap {
    s.(link := P.Stop(s.link),
       timer := Stopped(s.timer),
       files := T.Clear(s.files),
       dirs := T.Clear(s.dirs),
       cleanupPending := false,
       shared := match s.context
         case None => s.shared
         case Some(ctx) => s.shared.(contexts := s.shared.contexts - {ctx}))
  }

  /** The end of CleanupContext. */
  function Closed(s: Wrap): Wrap {
    s.(context := None, connected := false, disconnecting := false, link := P.Reset(s.link))
  }

  function CleanupContext(s: Wrap, script: Script): Wrap
    decreases script, 2
  {
    var s1 := Dismantle(s);
    match s1.context
    case None => Closed(s1)
    case Some(ctx) => Closed(Destroy(s1, ctx, script))
  }

  function HandleFatal(s: Wrap, script: Script): Wrap {
    DrainDeferred(CleanupContext(QueueForCleanup(RejectAll(s, ConnectionLost), {}), script))
  }

  // ---- Completion callbacks ---------------------------------------------------------------

  /** The callback libsmb2 was given when the operation was submitted. */
  function OnComplete(s: Wrap, id: OpId, status: int, reply: Reply, nested: Script): Wrap
    decreases nested, 4
  {
    if id !in s.ledger.operations then s.(ledger := s.ledger.(faults := s.ledger.faults + {UseAfterFree}))
    else
      match s.ledger.operations[id].kind
      case ConnectOp => OnConnectComplete(s, id, status, nested)
      case DisconnectOp => OnDisconnectComplete(s, id, status, reply)
      case StatOp => OnStatComplete(s, id, status)
      case OpenOp => OnOpenComplete(s, id, status, nested)
      case OpendirOp => OnOpendirComplete(s, id, status)
      case _ => OnRequestComplete(s, id, status)
  }

  function OnConnectComplete(s: Wrap, id: OpId, status: int, nested: Script): Wrap
    requires id in s.ledger.operations
    decreases nested, 3
  {
    if s.ledger.operations[id].settled then Finish(s, id)
    else if status < 0 then
      Finish(CleanupContext(RejectOp(s, id, Classified(status)), nested), id)
    else
      Finish(ResolveOp(s.(connected := true, disconnecting := false), id, Connection), id)
  }

  function OnDisconnectComplete(s: Wrap, id: OpId, status: int, reply: Reply): Wrap
    requires id in s.ledger.operations
  {
    var s1 :=
      if s.ledger.operations[id].settled then s
      else if status < 0 then RejectOp(s, id, Classified(status))
      else ResolveOp(s, id, Undefined);
    var s2 := s1.(
      link := P.Reset(P.Stop(s1.link)),
      files := T.Clear(s1.files),
      dirs := T.Clear(s1.dirs),
      connected := false,
      disconnecting := false);
    ScheduleCleanup(Finish(QueueForCleanup(s2, {id}), id), reply)
  }

  function OnStatComplete(s: Wrap, id: OpId, status: int): Wrap
    requires id in s.ledger.operations
  {
    var op := s.ledger.operations[id];
    var s1 :=
      if op.settled then s
      else if status < 0 then RejectOp(s, id, Classified(status))
      else ResolveOp(s, id, Named(op.path, Paths.Basename(op.path)));
    Finish(s1, id)
  }

  /** A successful open reports status 0 and delivers a handle. */
  function OnOpenComplete(s: Wrap, id: OpId, status: int, nested: Script): Wrap
    requires id in s.ledger.operations
    decreases nested, 3
  {
    var op := s.ledger.operations[id];
    if op.settled || s.disconnecting then
      var s1 :=
        if status != 0 then s
        else if s.context.None? then s.(files := T.Abandon(s.files))
        else RunScript(Touch(s.(files := T.Bounce(s.files))), s.context.value, nested, false);
      Finish(RejectOp(s1, id, ConnectionLost), id)
    else if status < 0 then
      Finish(RejectOp(s, id, Classified(status)), id)
    else
      Finish(ResolveOp(s.(files := T.Insert(s.files, op.path)), id, Number(s.files.next)), id)
  }

  /** As OnOpenComplete, but closing a directory handle is local to libsmb2. */
  function OnOpendirComplete(s: Wrap, id: OpId, status: int): Wrap
    requires id in s.ledger.operations
  {
    var op := s.ledger.operations[id];
    if op.settled || Closing(s) then
      var s1 :=
        if status != 0 then s
        else if s.context.None? then s.(dirs := T.Abandon(s.dirs))
        else Touch(s.(dirs := T.Bounce(s.dirs)));
      Finish(RejectOp(s1, id, ConnectionLost), id)
    else if status < 0 then
      Finish(RejectOp(s, id, Classified(status)), id)
    else
      Finish(ResolveOp(s.(dirs := T.Insert(s.dirs, op.path)), id, Number(s.dirs.next)), id)
  }

  /** Reads and writes resolve with the byte count, the other requests with nothing. */
  function Reward(kind: Kind, status: int): Value {
    if kind.ReadOp? || kind.WriteOp? then Number(status) else Undefined
  }

  /** OnReadComplete, OnWriteComplete, OnFtruncateComplete, OnCloseComplete, OnPathComplete and
      OnRenameComplete, which differ only in the value they resolve with. */
  function OnRequestComplete(s: Wrap, id: OpId, status: int): Wrap
    requires id in s.ledger.operations
  {
    var op := s.ledger.operations[id];
    var s1 :=
      if op.settled then s
      else if Closing(s) then RejectOp(s, id, ConnectionLost)
      else if status < 0 then RejectOp(s, id, Classified(status))
      else ResolveOp(s, id, Reward(op.kind, status));
    Finish(s1, id)
  }

  // ---- Calls from JavaScript --------------------------------------------------------------

  /** A new operation, listed by RegisterPending, which then asks the timer to tick. */
  function Enlisted(s: Wrap, kind: Kind, now: nat, path: Text, reply: Reply): Wrap {
    s.(ledger := Enrol(s.ledger, kind, now, path), timer := Arm(s.timer, Tick, reply))
  }

  function Owe(s: Wrap, id: OpId): Wrap {
    s.(ledger := Submitted(s.ledger, id))
  }

  /** EnsureContext; `choice` is what smb2_init_context returned. */
  function EnsureContext(s: Wrap, choice: Option<CtxId>): Wrap {
    if s.context.Some? || choice.None? || choice.value in s.shared.live then s
    else
      var ctx := choice.value;
      s.(context := Some(ctx),
         shared := Shared(s.shared.contexts[ctx := s.self], s.shared.live + {ctx}))
  }

  function Connect(s: Wrap, choice: Option<CtxId>, path: Text, now: nat, reply: Reply, rc: int, script: Script): Wrap {
    var id := s.ledger.nextId;
    var s1 := EnsureContext(s, choice);
    if s1.context.None? then s1.(ledger := Stillborn(s1.ledger, ConnectOp, now, path, Rejected(NoContext)))
    else
      var s2 := Enlisted(s1, ConnectOp, now, path, reply);
      if !Arms(s1.timer, reply) then HandleFatal(s2, script)
      else if rc < 0 then CleanupContext(Finish(RejectOp(Touch(s2), id, Classified(rc)), id), script)
      else Owe(Touch(s2), id)
  }

  function Disconnect(s: Wrap, now: nat, reply: Reply, rc: int, script: Script): Wrap {
    var id := s.ledger.nextId;
    if s.context.None? || !s.connected then
      s.(ledger := Stillborn(s.ledger, DisconnectOp, now, [], Resolved(Undefined)))
    else
      var s1 := Enlisted(RejectAll(s.(disconnecting := true), ConnectionLost), DisconnectOp, now, [], reply);
      if !Arms(s.timer, reply) then HandleFatal(s1, script)
      else if rc < 0 then Finish(CleanupContext(RejectOp(Touch(s1), id, Classified(rc)), script), id)
      else Owe(Touch(s1), id)
  }

  predicate NeedsFile(kind: Kind) {
    kind.ReadOp? || kind.WriteOp? || kind.FtruncateOp? || kind.CloseOp?
  }

  function Refuse(s: Wrap, kind: Kind): Wrap {
    s.(ledger := Answer(s.ledger, kind, Rejected(InvalidState)))
  }

  predicate Acceptable(s: Wrap, kind: Kind, handle: nat, tooLong: bool) {
    && Ready(s)
    && (NeedsFile(kind) ==> handle in s.files.entries)
    && !((kind.ReadOp? || kind.WriteOp?) && tooLong)
  }

  /** The file table after a request: a close takes its entry out at once, and the native
      handle goes to smb2_close_async unless the timer fails first. */
  function AfterRequest(s: Wrap, kind: Kind, handle: nat, armed: bool): T.Table
    requires kind.CloseOp? ==> handle in s.files.entries
  {
    if !kind.CloseOp? then s.files else if armed then T.HandOver(s.files, handle) else T.Forget(s.files, handle)
  }

  /** The end of a request: wrecked by the timer, refused by libsmb2, or submitted. */
  function Concluded(s: Wrap, id: OpId, armed: bool, rc: int, script: Script): Wrap {
    if !armed then HandleFatal(s, script)
    else if rc < 0 then Finish(RejectOp(Touch(s), id, Classified(rc)), id)
    else Owe(Touch(s), id)
  }

  /** Stat, Open, Read, Write, Ftruncate, Close, Mkdir, Rmdir, Unlink, Rename and Opendir.
      `tooLong` says that a read or write asks for more than the server maximum. */
  function Request(s: Wrap, kind: Kind, path: Text, handle: nat, tooLong: bool,
                   now: nat, reply: Reply, rc: int, script: Script): Wrap
  {
    if !Acceptable(s, kind, handle, tooLong) then Refuse(s, kind)
    else
      var where := if NeedsFile(kind) then s.files.entries[handle].path else path;
      var armed := Arms(s.timer, reply);
      var s1 := s.(files := AfterRequest(s, kind, handle, armed));
      Concluded(Enlisted(s1, kind, now, where, reply), s.ledger.nextId, armed, rc, script)
  }

  /** Readdir answers at once; `entry` is the next name libsmb2 reports, if any. */
  function Readdir(s: Wrap, handle: nat, entry: Option<Text>): Wrap {
    if !Ready(s) || handle !in s.dirs.entries then Refuse(s, ReaddirOp)
    else
      var value := match entry
        case None => Null
        case Some(name) => Named(Paths.Join(s.dirs.entries[handle].path, name), name);
      Touch(s).(ledger := Answer(s.ledger, ReaddirOp, Resolved(value)))
  }

  function Closedir(s: Wrap, handle: nat): Wrap {
    if !Ready(s) || handle !in s.dirs.entries then Refuse(s, ClosedirOp)
    else
      Touch(s).(dirs := T.HandOver(s.dirs, handle),
                ledger := Answer(s.ledger, ClosedirOp, Resolved(Undefined)))
  }

  // ---- Calls from libuv and libsmb2 -------------------------------------------------------

  /** OnServiceTimer; a one-shot timer is inactive by the time its callback runs. */
  function OnServiceTimer(s: Wrap, script: Script, rc: int, teardown: Script): Wrap {
    var s1 := if s.timer.mode.OneShot? then s.(timer := s.timer.(mode := Off)) else s;
    if s1.cleanupPending then
      var s2 := DrainDeferred(CleanupContext(s1, script));
      if s2.cleanupRef
      then s2.(cleanupRef := false, ledger := AddRefs(s2.ledger, -1))
      else s2
    else if s1.context.None? then s1
    else
      var s2 := RunScript(Touch(s1), s1.context.value, script, false);
      if rc < 0 then HandleFatal(s2, teardown) else s2
  }

  function ApplyPollEvents(s: Wrap, reply: Reply, teardown: Script): Wrap {
    if s.link.poll.None? || P.Translate(s.link.pollEvents) == P.NOTHING || reply.Accepted?
    then s.(link := P.Apply(s.link))
    else HandleFatal(s, teardown)
  }

  function OnPollEvent(s: Wrap, status: int, readable: bool, writable: bool,
                       script: Script, rc: int, reply: Reply, teardown: Script): Wrap
  {
    if s.context.None? then s
    else if status < 0 then HandleFatal(s, teardown)
    else if !readable && !writable then s
    else
      var s1 := RunScript(Touch(s), s.context.value, script, false);
      if rc < 0 then HandleFatal(s1, teardown) else ApplyPollEvents(s1, reply, teardown)
  }

  function StartPoll(s: Wrap, fd: int, reply: Reply, teardown: Script): Wrap {
    if P.WatchesFd(s.link, fd) then s
    else
      var stopped := P.Stop(s.link);
      if reply.NoLoop? then HandleFatal(s.(link := stopped), teardown)
      else if reply.InitFails? then HandleFatal(s.(link := P.AttachFailed(stopped)), teardown)
      else ApplyPollEvents(s.(link := P.Attach(stopped, fd)), reply, teardown)
  }

  /** OnFdChanged at top level, where libuv may refuse. */
  function FdChange(s: Wrap, ctx: CtxId, fd: int, add: bool, reply: Reply, teardown: Script): Wrap {
    if !RoutesHere(s, ctx) then Misroute(s, ctx)
    else if add then StartPoll(s, fd, reply, teardown)
    else s.(link := P.Stop(s.link))
  }

  /** OnEventsChanged at top level, where libuv may refuse. */
  function EventsChange(s: Wrap, ctx: CtxId, mask: int, reply: Reply, teardown: Script): Wrap {
    if !RoutesHere(s, ctx) then Misroute(s, ctx)
    else ApplyPollEvents(s.(link := P.Ask(s.link, mask)), reply, teardown)
  }

  /** The destructor. */
  function Finalize(s: Wrap, script: Script): Wrap {
    DrainDeferred(CleanupContext(s, script))
  }
}
