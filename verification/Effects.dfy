/**
 What each call and each report does, field by field, stated without the functions that the
 transitions are built from.
 */
module Effects {
  import opened Options
  import opened Texts
  import opened Operations
  import opened Lifecycle
  import opened Invariants
  import opened Steps
  import opened Theorems
  import opened Outcomes
  import T = HandleTable
  import P = PollLink
  import Paths

  // ---- Submissions ------------------------------------------------------------------------

  /** `t` is `m` with a new operation at the next address: listed, referenced and owed a callback,
      its promise open. */
  predicate Submits(m: Ledger, t: Ledger, op: Operation) {
    var id := m.nextId;
    t == m.(
      operations := m.operations[id := op],
      promises := m.promises[id := Promise(op.kind, [])],
      nextId := id + 1,
      created := m.created + {id},
      pending := m.pending + {id},
      outstanding := m.outstanding + {id},
      refs := m.refs + 1)
  }

  lemma Submission(m: Ledger, kind: Kind, now: nat, path: Text)
    ensures Submits(m, Submitted(Enrol(m, kind, now, path), m.nextId), Operation(kind, false, now, path))
  {
  }

  /** A request that libuv and libsmb2 accept is listed with its kind, its time and its path: the
      caller's, or that of the table entry for the calls that take a file handle.  Nothing else
      changes, but for the timer, and for the table when the call is a close. */
  lemma RequestSubmits(s: Wrap, kind: Kind, path: Text, handle: nat, tooLong: bool, now: nat, rc: int, script: Script)
    requires Steady(s, {}) && s.context.Some? && s.connected && !s.disconnecting
    requires (kind.ReadOp? || kind.WriteOp? || kind.FtruncateOp? || kind.CloseOp?) ==> handle in s.files.entries
    requires (kind.ReadOp? || kind.WriteOp?) ==> !tooLong
    requires rc >= 0
    ensures var t := Request(s, kind, path, handle, tooLong, now, Accepted, rc, script);
      && t == s.(ledger := t.ledger, timer := Timer(true, Tick), files := t.files)
      && ((kind.StatOp? || kind.OpenOp? || kind.OpendirOp? || kind.MkdirOp? || kind.RmdirOp? || kind.UnlinkOp?
           || kind.RenameOp?) ==> Submits(s.ledger, t.ledger, Operation(kind, false, now, path)))
      && ((kind.ReadOp? || kind.WriteOp? || kind.FtruncateOp? || kind.CloseOp?) ==>
            Submits(s.ledger, t.ledger, Operation(kind, false, now, s.files.entries[handle].path)))
      && (!kind.CloseOp? ==> t.files == s.files)
  {
    hide Steady, Concluded, Enlisted, Submits, AfterRequest;
    var where := if NeedsFile(kind) then s.files.entries[handle].path else path;
    var files := AfterRequest(s, kind, handle, true);
    AliveTouches(s);
    Sent(s.(files := files), kind, now, where, rc, script);
    Submission(s.ledger, kind, now, where);
    TableAfter(s, kind, handle);
  }

  lemma TableAfter(s: Wrap, kind: Kind, handle: nat)
    requires kind.CloseOp? ==> handle in s.files.entries
    ensures !kind.CloseOp? ==> AfterRequest(s, kind, handle, true) == s.files
    ensures kind.CloseOp? ==> AfterRequest(s, kind, handle, true) == T.HandOver(s.files, handle)
  {
    hide T.HandOver, T.Forget;
  }

  lemma Sent(s: Wrap, kind: Kind, now: nat, path: Text, rc: int, script: Script)
    requires s.context.Some? && s.context.value in s.shared.live && rc >= 0
    ensures Concluded(Enlisted(s, kind, now, path, Accepted), s.ledger.nextId, true, rc, script)
         == s.(ledger := Submitted(Enrol(s.ledger, kind, now, path), s.ledger.nextId), timer := Timer(true, Tick))
  {
    hide HandleFatal, Enrol, Submitted;
  }

  lemma AliveTouches(s: Wrap)
    requires Steady(s, {}) && s.context.Some?
    ensures s.context.value in s.shared.live && s.ledger.nextId > 0 && s.timer.initialized
  {
  }

  /** A connect that libuv and libsmb2 accept: the same of its operation, and a context of its own. */
  lemma ConnectSubmits(s: Wrap, ctx: CtxId, path: Text, now: nat, rc: int, script: Script)
    requires Steady(s, {}) && s.ledger.nextId == 0 && ctx !in s.shared.live && rc >= 0
    ensures var t := Connect(s, Some(ctx), path, now, Accepted, rc, script);
      && t == s.(ledger := t.ledger, timer := Timer(true, Tick), context := Some(ctx),
                 shared := Shared(s.shared.contexts[ctx := s.self], s.shared.live + {ctx}))
      && Submits(s.ledger, t.ledger, Operation(ConnectOp, false, now, path))
  {
    assert s.context.None?;
    hide Steady, HandleFatal, CleanupContext, Enrol, Submitted, Submits, Stillborn;
    Submission(s.ledger, ConnectOp, now, path);
  }

  /** A disconnect that libuv and libsmb2 accept: everything listed is rejected, the new operation is
      listed, and the tables and the poll stay as they are. */
  lemma DisconnectSubmits(s: Wrap, now: nat, rc: int, script: Script)
    requires Steady(s, {}) && s.connected && rc >= 0
    ensures var t, id := Disconnect(s, now, Accepted, rc, script), s.ledger.nextId;
      && t == s.(ledger := t.ledger, timer := Timer(true, Tick), disconnecting := true)
      && t.ledger.operations.Keys == s.ledger.operations.Keys + {id}
      && t.ledger.operations[id] == Operation(DisconnectOp, false, now, [])
      && (forall x :: x in s.ledger.operations ==> t.ledger.operations[x] == s.ledger.operations[x].(settled := true))
      && t.ledger.pending == s.ledger.pending + {id} && t.ledger.outstanding == s.ledger.outstanding + {id}
      && t.ledger.refs == s.ledger.refs + 1 && t.ledger.nextId == id + 1
  {
    AliveTouches(s);
    ConnectedLedger(s);
    hide Steady, Disconnect, RejectEach, LedgerInv, Enrol, Submitted;
    var m := RejectEach(s.ledger, s.ledger.pending, ConnectionLost);
    LeavingSubmission(s.ledger, now, s.cleanupRef);
    Left(s.(disconnecting := true), m, now, rc, script);
    LeftAlike(s, now, rc, script);
  }

  lemma LeftAlike(s: Wrap, now: nat, rc: int, script: Script)
    requires s.context.Some? && s.connected
    ensures Disconnect(s, now, Accepted, rc, script) == Disconnect(s.(disconnecting := true), now, Accepted, rc, script)
  {
    hide HandleFatal, CleanupContext, RejectAll, RejectOp, Finish, Touch, Owe, Enlisted;
    assert s.(disconnecting := true).(disconnecting := true) == s.(disconnecting := true);
  }

  lemma LeavingSubmission(m: Ledger, now: nat, held: bool)
    requires LedgerInv(m, {}, held) && m.nextId !in m.operations
    requires forall x :: x in m.operations ==> x in m.pending
    ensures var r := RejectEach(m, m.pending, ConnectionLost);
      var t, id := Submitted(Enrol(r, DisconnectOp, now, []), r.nextId), m.nextId;
      && r.nextId == id
      && t.operations.Keys == m.operations.Keys + {id}
      && t.operations[id] == Operation(DisconnectOp, false, now, [])
      && (forall x :: x in m.operations ==> t.operations[x] == m.operations[x].(settled := true))
      && t.pending == m.pending + {id} && t.outstanding == m.outstanding + {id}
      && t.refs == m.refs + 1 && t.nextId == id + 1
  {
    hide LedgerInv, RejectEach, Enrol, Submitted, OnlyRejects;
    RejectEachFacts(m, m.pending, ConnectionLost, {}, held);
    var r := RejectEach(m, m.pending, ConnectionLost);
    Submission(r, DisconnectOp, now, []);
  }

  lemma ConnectedLedger(s: Wrap)
    requires Steady(s, {}) && s.connected
    ensures LedgerInv(s.ledger, {}, s.cleanupRef) && s.context.Some? && s.ledger.nextId !in s.ledger.operations
    ensures forall x :: x in s.ledger.operations ==> x in s.ledger.pending
  {
    Membership(s.ledger, {}, s.cleanupRef);
  }

  lemma Left(s: Wrap, m: Ledger, now: nat, rc: int, script: Script)
    requires s.context.Some? && s.context.value in s.shared.live && s.connected && s.disconnecting && rc >= 0
    requires m == RejectEach(s.ledger, s.ledger.pending, ConnectionLost) && m.nextId == s.ledger.nextId
    ensures Disconnect(s, now, Accepted, rc, script)
         == s.(ledger := Submitted(Enrol(m, DisconnectOp, now, []), m.nextId), timer := Timer(true, Tick))
  {
    hide HandleFatal, CleanupContext, RejectEach, RejectOp, Finish, Enrol, Submitted;
    assert s.(disconnecting := true) == s;
  }

  // ---- Refusals ---------------------------------------------------------------------------

  /** A request is refused with INVALID_STATE, and nothing else happens, exactly when the connection
      is not ready, the call takes a file handle that is not in the table, or a read or a write asks
      for more than the server allows. */
  lemma RequestRefused(s: Wrap, kind: Kind, path: Text, handle: nat, tooLong: bool,
                       now: nat, reply: Reply, rc: int, script: Script)
    requires Steady(s, {}) && IsRequest(kind)
    ensures OnlyRefuses(s, Request(s, kind, path, handle, tooLong, now, reply, rc, script), kind) <==>
      || s.context.None? || !s.connected || s.disconnecting
      || ((kind.ReadOp? || kind.WriteOp? || kind.FtruncateOp? || kind.CloseOp?) && handle !in s.files.entries)
      || ((kind.ReadOp? || kind.WriteOp?) && tooLong)
  {
    hide Steady, Concluded, Enlisted, AfterRequest, UnderWay;
    if Acceptable(s, kind, handle, tooLong) {
      RequestOutcome(s, kind, path, handle, tooLong, now, reply, rc, script);
      NotRefused(s, Request(s, kind, path, handle, tooLong, now, reply, rc, script), kind);
    }
  }

  lemma NotRefused(s: Wrap, t: Wrap, kind: Kind)
    requires Standing(t, s.ledger.nextId) != [Rejected(InvalidState)] || UnderWay(t, s.ledger.nextId)
    ensures !OnlyRefuses(s, t, kind)
  {
  }

  // ---- Closing ----------------------------------------------------------------------------

  /** `t` is `s` without the entry at `handle`, whose native handle has gone to a close call. */
  predicate HandsOver(s: T.Table, t: T.Table, handle: nat) {
    && handle in s.entries
    && t.entries == s.entries - {handle}
    && t.handed == s.handed + multiset{s.entries[handle].native}
    && t.log == s.log + [T.Closed(handle)]
    && t.next == s.next && t.opens == s.opens && t.delivered == s.delivered
    && t.place == s.place[s.entries[handle].native := T.Handed]
  }

  /** A close takes its entry out at once and hands the native handle to libsmb2, whether libsmb2 then
      accepts the call or not. */
  lemma CloseHandsOver(s: Wrap, path: Text, handle: nat, tooLong: bool, now: nat, rc: int, script: Script)
    requires Steady(s, {}) && s.context.Some? && s.connected && !s.disconnecting && handle in s.files.entries
    ensures var t := Request(s, CloseOp, path, handle, tooLong, now, Accepted, rc, script);
      && HandsOver(s.files, t.files, handle) && t.dirs == s.dirs
      && (s.files.opens < 0x1_0000_0000 ==>
            var h := s.files.entries[handle].native; s.files.handed[h] == 0 && t.files.handed[h] == 1)
  {
    TablesSound(s, {});
    hide Steady, Concluded, Enlisted, AfterRequest, HandsOver, T.TableInv;
    TableAfter(s, CloseOp, handle);
    EntryHandedOver(s.files, handle);
    var s1 := s.(files := AfterRequest(s, CloseOp, handle, true));
    ConcludedTables(s1, CloseOp, now, s.files.entries[handle].path, rc, script);
  }

  lemma EntryHandedOver(t: T.Table, handle: nat)
    requires T.TableInv(t) && handle in t.entries
    ensures HandsOver(t, T.HandOver(t, handle), handle)
    ensures t.opens < 0x1_0000_0000 ==> t.handed[t.entries[handle].native] == 0
  {
  }

  lemma ConcludedTables(s: Wrap, kind: Kind, now: nat, path: Text, rc: int, script: Script)
    ensures var t := Concluded(Enlisted(s, kind, now, path, Accepted), s.ledger.nextId, true, rc, script);
      t.files == s.files && t.dirs == s.dirs
  {
    hide HandleFatal, Enrol, Submitted, Reject, Retire;
  }

  /** A close that the timer wrecks takes everything out. */
  lemma WreckedCloseEmpties(s: Wrap, path: Text, handle: nat, tooLong: bool, now: nat, reply: Reply, rc: int,
                            script: Script)
    requires Steady(s, {}) && s.context.Some? && s.connected && !s.disconnecting && handle in s.files.entries
    requires !Arms(s.timer, reply)
    ensures Request(s, CloseOp, path, handle, tooLong, now, reply, rc, script).files.entries == map[]
  {
    hide Steady, HandleFatal, AfterRequest, Enlisted, Breakable, Arms, Kept;
    AfterRequestKeeps(s, CloseOp, handle, false);
    TableSteady(s, AfterRequest(s, CloseOp, handle, false));
    var s1 := s.(files := AfterRequest(s, CloseOp, handle, false));
    EnlistedEvolves(s1, CloseOp, now, s.files.entries[handle].path, reply);
    FatalEffect(Enlisted(s1, CloseOp, now, s.files.entries[handle].path, reply), script);
  }

  /** However it ends, the entry is gone. */
  lemma CloseRemoves(s: Wrap, path: Text, handle: nat, tooLong: bool, now: nat, reply: Reply, rc: int, script: Script)
    requires Steady(s, {}) && s.context.Some? && s.connected && !s.disconnecting && handle in s.files.entries
    ensures handle !in Request(s, CloseOp, path, handle, tooLong, now, reply, rc, script).files.entries
  {
    if Arms(s.timer, reply) {
      ArmsAlike(s, path, handle, tooLong, now, reply, rc, script);
      CloseHandsOver(s, path, handle, tooLong, now, rc, script);
    } else {
      WreckedCloseEmpties(s, path, handle, tooLong, now, reply, rc, script);
    }
    hide Request, Steady;
  }

  lemma ArmsAlike(s: Wrap, path: Text, handle: nat, tooLong: bool, now: nat, reply: Reply, rc: int, script: Script)
    requires handle in s.files.entries && Arms(s.timer, reply)
    ensures Request(s, CloseOp, path, handle, tooLong, now, reply, rc, script)
         == Request(s, CloseOp, path, handle, tooLong, now, Accepted, rc, script)
  {
    hide Concluded, AfterRequest, Enrol;
  }

  /** Closedir takes the entry out and hands its handle to smb2_closedir, at once. */
  lemma ClosedirHandsOver(s: Wrap, handle: nat)
    requires Steady(s, {}) && s.context.Some? && s.connected && !s.disconnecting && handle in s.dirs.entries
    ensures var t := Closedir(s, handle);
      && HandsOver(s.dirs, t.dirs, handle)
      && t == s.(dirs := t.dirs, ledger := s.ledger.(
           promises := s.ledger.promises[s.ledger.nextId := Promise(ClosedirOp, [Resolved(Undefined)])],
           nextId := s.ledger.nextId + 1))
      && (s.dirs.opens < 0x1_0000_0000 ==>
            var h := s.dirs.entries[handle].native; s.dirs.handed[h] == 0 && t.dirs.handed[h] == 1)
  {
    AliveTouches(s);
    TablesSound(s, {});
    hide Steady, T.TableInv, HandsOver, T.HandOver;
    EntryHandedOver(s.dirs, handle);
    HandedOne(s.dirs, handle);
  }

  lemma HandedOne(t: T.Table, handle: nat)
    requires handle in t.entries
    ensures T.HandOver(t, handle).handed == t.handed + multiset{t.entries[handle].native}
  {
  }

  // ---- Reading a directory ----------------------------------------------------------------

  /** The path of an entry: its name at the top of the share, the directory's path, a backslash and
      the name elsewhere. */
  predicate IsEntryPath(dir: Text, name: Text, path: Text) {
    if |dir| == 0 then path == name
    else
      && |path| == |dir| + 1 + |name|
      && (forall i :: 0 <= i < |dir| ==> path[i] == dir[i])
      && path[|dir|] == 0x5C
      && (forall i :: 0 <= i < |name| ==> path[|dir| + 1 + i] == name[i])
  }

  /** Readdir on a ready connection answers with null at the end of the listing, and with the entry's
      path and name before it; nothing else changes. */
  lemma ReaddirAnswers(s: Wrap, handle: nat, entry: Option<Text>)
    requires Steady(s, {}) && s.context.Some? && s.connected && !s.disconnecting && handle in s.dirs.entries
    ensures var t, id := Readdir(s, handle, entry), s.ledger.nextId;
      && id in t.ledger.promises
      && t == s.(ledger := s.ledger.(
           promises := s.ledger.promises[id := t.ledger.promises[id]], nextId := id + 1))
      && t.ledger.promises[id].kind == ReaddirOp
      && (entry.None? ==> t.ledger.promises[id].outcomes == [Resolved(Null)])
      && (entry.Some? ==> exists path ::
            && IsEntryPath(s.dirs.entries[handle].path, entry.value, path)
            && t.ledger.promises[id].outcomes == [Resolved(Named(path, entry.value))])
  {
    AliveTouches(s);
    hide Steady, Paths.Join;
    if entry.Some? {
      var path := Paths.Join(s.dirs.entries[handle].path, entry.value);
      JoinIsEntryPath(s.dirs.entries[handle].path, entry.value);
      assert IsEntryPath(s.dirs.entries[handle].path, entry.value, path);
    }
  }

  lemma JoinIsEntryPath(dir: Text, name: Text)
    ensures IsEntryPath(dir, name, Paths.Join(dir, name))
  {
  }

  /** The base name of such a path is the name exactly when the name holds no backslash; and for a
      directory in normal form, not starting with white space, and a name without separators it leads
      to the entry exactly when the name neither ends in white space nor, at the top of the share,
      starts with it. */
  lemma EntryPathLeads(dir: Text, name: Text, path: Text)
    requires IsEntryPath(dir, name, path)
    ensures Paths.Basename(path) == name <==> BACKSLASH !in name
    ensures Paths.NormalizeSmbPath(dir) == dir && Paths.Clean(name) ==>
      (Paths.Segments(Paths.NormalizeSmbPath(path)) == Paths.Segments(Paths.NormalizeSmbPath(dir)) + [name] <==>
        !Paths.IsSpace(name[|name| - 1]) && (dir == [] ==> !Paths.IsSpace(name[0])))
  {
    EntryPathIsJoin(dir, name, path);
    Paths.BasenameOfJoin(dir, name);
    if Paths.NormalizeSmbPath(dir) == dir && Paths.Clean(name) {
      Paths.NormalizedShape(dir);
      Paths.NormalizeTwice(dir);
      hide Paths.NormalizeSmbPath, Paths.Segments, Paths.Join, Paths.Canonical, Paths.IsSpace, IsEntryPath;
      Paths.ReaddirReaches(dir, name);
    }
  }

  lemma EntryPathIsJoin(dir: Text, name: Text, path: Text)
    requires IsEntryPath(dir, name, path)
    ensures path == Paths.Join(dir, name)
  {
    var joined := Paths.Join(dir, name);
    assert |path| == |joined| && forall i :: 0 <= i < |path| ==> path[i] == joined[i];
  }

  // ---- Answers ----------------------------------------------------------------------------

  /** The callback of an open request changes its operation, its promise, the timer and, for an open, a
      table; nothing else. */
  lemma AnswerTouchesOnly(s: Wrap, id: OpId, busy: set<OpId>, status: int, reply: Reply, nested: Script)
    requires Called(s, id, busy) && Unsettled(s.ledger, id)
    requires !s.ledger.operations[id].kind.ConnectOp? && !s.ledger.operations[id].kind.DisconnectOp?
    ensures var op, t := s.ledger.operations[id], OnComplete(s, id, status, reply, nested);
      && t == s.(ledger := t.ledger, timer := t.timer, files := t.files, dirs := t.dirs)
      && (!op.kind.OpenOp? || status < 0 ==> t.files == s.files)
      && (!op.kind.OpendirOp? || status < 0 ==> t.dirs == s.dirs)
      && t.ledger.pending == s.ledger.pending - {id}
      && t.timer == (if t.ledger.pending == {} && !s.cleanupPending then Timer(true, Off) else s.timer)
  {
    OpenMeansConnected(s, id, busy);
    CalledLedger(s, id, busy);
    assert s.timer.initialized;
    hide Called, LedgerInv, OnComplete, WithHandle, Delivered, RejectOp, ResolveOp, Finish;
    RequestSplit(s, id, status, reply, nested);
    HandleTouchesOnly(s, id);
    EndTouchesOnly(s, id, Classified(status), Undefined);
    if status >= 0 {
      EndTouchesOnly(WithHandle(s, id), id, Classified(status), Delivered(s, id, status));
    }
  }

  lemma HandleTouchesOnly(s: Wrap, id: OpId)
    requires id in s.ledger.operations
    ensures var op, t := s.ledger.operations[id], WithHandle(s, id);
      && t == s.(files := t.files, dirs := t.dirs)
      && (!op.kind.OpenOp? ==> t.files == s.files) && (!op.kind.OpendirOp? ==> t.dirs == s.dirs)
  {
    hide T.Insert;
  }

  lemma EndTouchesOnly(s: Wrap, id: OpId, code: Code, value: Value)
    requires s.timer.initialized
    ensures var t := Finish(RejectOp(s, id, code), id); EndsTouching(s, t, id)
    ensures var t := Finish(ResolveOp(s, id, value), id); EndsTouching(s, t, id)
  {
  }

  predicate EndsTouching(s: Wrap, t: Wrap, id: OpId) {
    && t == s.(ledger := t.ledger, timer := t.timer)
    && t.ledger.pending == s.ledger.pending - {id}
    && t.timer == if t.ledger.pending == {} && !s.cleanupPending then Timer(true, Off) else s.timer
  }

  /** A successful connect makes the connection ready and changes nothing else but its own operation and
      promise, and the timer, which stops. */
  lemma ConnectEstablishes(s: Wrap, id: OpId, busy: set<OpId>, status: int, reply: Reply, nested: Script)
    requires Called(s, id, busy) && Unsettled(s.ledger, id) && s.ledger.operations[id].kind.ConnectOp? && status >= 0
    ensures var t := OnComplete(s, id, status, reply, nested);
      && t == s.(ledger := t.ledger, timer := t.timer, connected := true)
      && t.ledger.operations == map[] && t.ledger.pending == {}
      && (!s.cleanupPending ==> t.timer == Timer(true, Off))
  {
    OnlyConnect(s, id, busy);
    assert s.timer.initialized && !s.disconnecting;
    hide Called, CleanupContext, Settle;
    Dispatched(s, id, status, reply, nested);
    SettleLists(s.ledger, id, Resolved(Connection));
    RetireFacts(Settle(s.ledger, id, Resolved(Connection)), id);
    hide Retire, OnComplete;
    assert s.ledger.operations.Keys - {id} == {};
  }

  lemma SettleLists(m: Ledger, id: OpId, outcome: Outcome)
    requires id in m.operations
    ensures Settle(m, id, outcome).pending == m.pending
    ensures Settle(m, id, outcome).operations.Keys == m.operations.Keys
  {
  }

  /** The end of a disconnect: if libuv starts the timer, the cleanup is scheduled and a reference, the
      only one left, is held for it; if not, neither is, and that is noted.  The context stays. */
  lemma DisconnectSchedules(s: Wrap, id: OpId, busy: set<OpId>, status: int, reply: Reply, nested: Script)
    requires Called(s, id, busy) && s.ledger.operations[id].kind.DisconnectOp?
    ensures var t := OnComplete(s, id, status, reply, nested);
      && t.context == s.context && t.shared == s.shared && !t.connected && !t.disconnecting
      && t.ledger.pending == {} && t.link.poll == None && t.link.pollEvents == 0
      && (reply.Accepted? || reply.InitFails? ==>
            t.timer == Timer(true, OneShot) && t.cleanupPending && t.cleanupRef && t.ledger.refs == 1
            && t.scheduleFailed == s.scheduleFailed)
      && (reply.StartFails? ==> !t.cleanupPending && !t.cleanupRef && t.ledger.refs == 0 && t.scheduleFailed)
      && (reply.NoLoop? ==> t.scheduleFailed && t.cleanupPending == s.cleanupPending && t.cleanupRef == s.cleanupRef)
  {
    AnsweredDisconnectCalled(s, id, status, busy);
    DisconnectSplit(s, id, status, reply);
    Dispatched(s, id, status, reply, nested);
    var s1 := AnsweredDisconnect(s, id, status);
    assert s1.ledger.operations[id].kind.DisconnectOp?;
    hide Called, Evolves, Spares, AnsweredDisconnect, OnComplete, OnDisconnectComplete, WoundUp, OnlyRejects, Sound,
      AllSettled, Lasting, ScheduleCleanup;
    DisconnectIsNotConnecting(s1, id, busy);
    WoundUpEffect(s1, id, busy);
    var s2 := WoundUp(s1, id);
    WoundUpKeeps(s1, id);
    AnsweredKeeps(s, id, status);
    SoundCounts(s2);
    ScheduleTells(s2, reply);
  }

  lemma ScheduleTells(s: Wrap, reply: Reply)
    requires s.timer.initialized && s.ledger.pending == {} && s.ledger.refs == if s.cleanupRef then 1 else 0
    ensures var t := ScheduleCleanup(s, reply);
      && t == s.(timer := t.timer, cleanupPending := t.cleanupPending, cleanupRef := t.cleanupRef,
                 scheduleFailed := t.scheduleFailed, ledger := s.ledger.(refs := t.ledger.refs))
      && (reply.Accepted? || reply.InitFails? ==>
            t.timer == Timer(true, OneShot) && t.cleanupPending && t.cleanupRef && t.ledger.refs == 1
            && t.scheduleFailed == s.scheduleFailed)
      && (reply.StartFails? ==> !t.cleanupPending && !t.cleanupRef && t.ledger.refs == 0 && t.scheduleFailed)
      && (reply.NoLoop? ==> t.scheduleFailed && t.cleanupPending == s.cleanupPending && t.cleanupRef == s.cleanupRef)
  {
  }

  lemma DisconnectIsNotConnecting(s: Wrap, id: OpId, busy: set<OpId>)
    requires Called(s, id, busy) && s.ledger.operations[id].kind.DisconnectOp?
    ensures !Connecting(s)
  {
  }

  lemma SoundCounts(s: Wrap)
    requires Sound(s) && s.ledger.pending == {}
    ensures s.ledger.refs == if s.cleanupRef then 1 else 0
  {
  }

  lemma WoundUpKeeps(s: Wrap, id: OpId)
    ensures var t := WoundUp(s, id);
      && t.cleanupPending == s.cleanupPending && t.cleanupRef == s.cleanupRef
      && t.link.poll == None && t.link.pollEvents == 0
  {
    hide Defer, Retire, T.Clear;
  }

  lemma AnsweredKeeps(s: Wrap, id: OpId, status: int)
    requires id in s.ledger.operations
    ensures var t := AnsweredDisconnect(s, id, status); t == s.(ledger := t.ledger)
  {
    hide Reject, Settle;
  }

  /** Whatever state it is in, a connection that is disconnecting or has no context rejects the answer of
      a request that is still open, and takes no handle; a stat alone does not ask, nor an open without
      a context. */
  lemma ClosingLosesAnswers(s: Wrap, id: OpId, status: int, reply: Reply)
    requires id in s.ledger.operations && !s.ledger.operations[id].settled
    requires id in s.ledger.promises && s.ledger.promises[id].outcomes == []
    requires var kind := s.ledger.operations[id].kind;
      IsRequest(kind) && !kind.StatOp? && (if kind.OpenOp? then s.disconnecting else s.context.None? || s.disconnecting)
    ensures IsLost(s, OnComplete(s, id, status, reply, []), id)
  {
    hide OnConnectComplete, OnDisconnectComplete, OnStatComplete, OnOpenComplete, OnOpendirComplete, OnRequestComplete,
      Closing;
    var kind := s.ledger.operations[id].kind;
    if kind.OpenOp? {
      OpenIsLost(s, id, status);
    } else if kind.OpendirOp? {
      OpendirIsLost(s, id, status);
    } else {
      RequestIsLost(s, id, status);
    }
  }

  /** The promise of `id` is rejected for the loss of the connection, its operation is gone, and the
      tables hold what they held. */
  predicate IsLost(s: Wrap, t: Wrap, id: OpId) {
    && id in t.ledger.promises && t.ledger.promises[id].outcomes == [Rejected(ConnectionLost)]
    && id !in t.ledger.operations
    && t.files.entries == s.files.entries && t.dirs.entries == s.dirs.entries
  }

  lemma OpenIsLost(s: Wrap, id: OpId, status: int)
    requires id in s.ledger.operations && !s.ledger.operations[id].settled && s.disconnecting
    requires id in s.ledger.promises && s.ledger.promises[id].outcomes == []
    ensures IsLost(s, OnOpenComplete(s, id, status, []), id)
  {
    hide Finish, RejectOp, T.Bounce, T.Abandon, Touch;
    var bounced := Touch(s.(files := T.Bounce(s.files)));
    BouncedKeeps(s);
    RejectedForGood(s, id);
    RejectedForGood(bounced, id);
    RejectedForGood(s.(files := T.Abandon(s.files)), id);
  }

  lemma OpendirIsLost(s: Wrap, id: OpId, status: int)
    requires id in s.ledger.operations && !s.ledger.operations[id].settled && (s.context.None? || s.disconnecting)
    requires id in s.ledger.promises && s.ledger.promises[id].outcomes == []
    ensures IsLost(s, OnOpendirComplete(s, id, status), id)
  {
    hide Finish, RejectOp, T.Bounce, T.Abandon, Touch;
    BouncedKeeps(s);
    RejectedForGood(s, id);
    RejectedForGood(Touch(s.(dirs := T.Bounce(s.dirs))), id);
    RejectedForGood(s.(dirs := T.Abandon(s.dirs)), id);
  }

  lemma RequestIsLost(s: Wrap, id: OpId, status: int)
    requires id in s.ledger.operations && !s.ledger.operations[id].settled && (s.context.None? || s.disconnecting)
    requires id in s.ledger.promises && s.ledger.promises[id].outcomes == []
    ensures IsLost(s, OnRequestComplete(s, id, status), id)
  {
    hide Finish, RejectOp;
    RejectedForGood(s, id);
  }

  lemma BouncedKeeps(s: Wrap)
    ensures var t := Touch(s.(files := T.Bounce(s.files)));
      t.ledger == s.ledger && t.files.entries == s.files.entries && t.dirs == s.dirs
    ensures var t := Touch(s.(dirs := T.Bounce(s.dirs)));
      t.ledger == s.ledger && t.files == s.files && t.dirs.entries == s.dirs.entries
    ensures T.Abandon(s.files).entries == s.files.entries && T.Abandon(s.dirs).entries == s.dirs.entries
  {
  }

  lemma RejectedForGood(s: Wrap, id: OpId)
    requires id in s.ledger.operations && !s.ledger.operations[id].settled
    requires id in s.ledger.promises && s.ledger.promises[id].outcomes == []
    ensures var t := Finish(RejectOp(s, id, ConnectionLost), id);
      && id in t.ledger.promises && t.ledger.promises[id].outcomes == [Rejected(ConnectionLost)]
      && id !in t.ledger.operations && t.files == s.files && t.dirs == s.dirs
  {
    assert [] + [Rejected(ConnectionLost)] == [Rejected(ConnectionLost)];
  }

  /** A teardown leaves no context, no poll and no mask. */
  lemma TeardownResets(s: Wrap, script: Script)
    requires Sound(s) && Routed(s) && AllSettled(s.ledger) && (s.context.None? ==> s.ledger.outstanding == {})
    ensures var t := CleanupContext(s, script);
      && t.context == None && !t.connected && !t.disconnecting
      && t.link.poll == None && t.link.pollEvents == 0
      && t.files.entries == map[] && t.dirs.entries == map[]
  {
    CleanupEffect(s, script);
    MaskReset(s, script);
    hide Sound, Routed, AllSettled, CleanupContext;
  }

  lemma MaskReset(s: Wrap, script: Script)
    ensures CleanupContext(s, script).link.pollEvents == 0
  {
    hide Dismantle, Destroy;
  }
}
