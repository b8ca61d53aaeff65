/**
 The wrapper class itself, with the fields of the source updated in place.  Every method is
 proved to take the connection exactly where the transition of the same name in Lifecycle does,
 whatever order the pending set is enumerated in.

 `View` puts the fields together.  The `record` fields are ghost: they hold what the model
 remembers beyond the source's own fields, and `View` overrides the rest of them.
 */
module SmbConnectionWraps {
  import opened Options
  import opened Texts
  import opened Operations
  import opened Lifecycle
  import opened Invariants
  import opened Steps
  import T = HandleTable
  import P = PollLink
  import Paths

  /** The static `contexts_`. */
  class ContextRegistry {
    var contexts: map<CtxId, SmbConnectionWrap>
    var live: set<CtxId>  // contexts libsmb2 has created and not destroyed

    constructor ()
      ensures contexts == map[] && live == {}
    {
      contexts := map[];
      live := {};
    }
  }

  ghost function Names(contexts: map<CtxId, SmbConnectionWrap>): map<CtxId, WrapId> {
    map c | c in contexts :: contexts[c].self
  }

  // ---- What the fields amount to ----------------------------------------------------------

  ghost function LedgerOf(record: Ledger, operations: map<OpId, Operation>, promises: map<OpId, Promise>,
                          nextAddress: OpId, pending: set<OpId>, deferred: seq<OpId>, outstanding: set<OpId>,
                          references: int): (m: Ledger)
    ensures m.operations == operations && m.pending == pending
    ensures m.nextId == nextAddress && m.outstanding == outstanding
  {
    record.(operations := operations, promises := promises, nextId := nextAddress, pending := pending,
            deferred := multiset(deferred), outstanding := outstanding, refs := references)
  }

  ghost function TableOf(record: T.Table, entries: map<nat, T.Entry>, next: nat, delivered: nat): (t: T.Table)
    ensures t.entries == entries && t.next == next
  {
    record.(entries := entries, next := next, delivered := delivered)
  }

  ghost function LinkOf(record: P.Link, poll: Option<P.PollState>, pollEvents: int, nextPoll: nat): (l: P.Link)
    ensures l.poll == poll && l.pollEvents == pollEvents
  {
    record.(poll := poll, pollEvents := pollEvents, nextPoll := nextPoll)
  }

  /** The connection once RegisterPending has listed an operation and asked the timer to tick. */
  ghost function Listed(s: Wrap, id: OpId, reply: Reply): Wrap {
    s.(ledger := Enlist(s.ledger, id), timer := Arm(s.timer, Tick, reply))
  }

  // ---- Sizes, for termination -------------------------------------------------------------

  ghost function ActSize(act: Act): nat {
    match act
    case Complete(_, _, _, nested) => 1 + ScriptSize(nested)
    case _ => 1
  }

  ghost function ScriptSize(script: Script): nat {
    if script == [] then 0 else ActSize(script[0]) + ScriptSize(script[1..])
  }

  lemma {:induction false} ActFits(script: Script, k: nat)
    requires k < |script|
    ensures ActSize(script[k]) <= ScriptSize(script)
  {
    if k > 0 {
      ActFits(script[1..], k - 1);
    }
  }

  // ---- The class --------------------------------------------------------------------------

  class SmbConnectionWrap {
    const self: WrapId
    const registry: ContextRegistry

    var context: Option<CtxId>
    var connected: bool
    var disconnecting: bool
    var pollEvents: int
    var pollState: Option<P.PollState>
    var serviceTimer: TimerMode
    var serviceTimerInitialized: bool
    var cleanupContextPending: bool
    var cleanupRefHeld: bool
    var fileHandles: map<nat, T.Entry>
    var dirHandles: map<nat, T.Entry>
    var nextFileHandle: nat
    var nextDirHandle: nat
    var pending: set<OpId>
    var deferredCleanupOperations: seq<OpId>

    // Memory, and what libsmb2 and the garbage collector keep.
    var operations: map<OpId, Operation>
    var promises: map<OpId, Promise>
    var nextAddress: OpId
    var nextPollState: nat
    var outstanding: set<OpId>  // callbacks libsmb2 may still fire
    var filesDelivered: nat     // native handles are numbered as libsmb2 delivers them
    var dirsDelivered: nat
    var references: int         // Ref and Unref

    ghost var record: Ledger
    ghost var fileRecord: T.Table
    ghost var dirRecord: T.Table
    ghost var linkRecord: P.Link
    ghost var scheduleFailed: bool
    ghost var faults: set<ContextFault>

    ghost function Heap(): Ledger
      reads this
    {
      LedgerOf(record, operations, promises, nextAddress, pending, deferredCleanupOperations,
               outstanding, references)
    }

    ghost function Files(): T.Table
      reads this
    {
      TableOf(fileRecord, fileHandles, nextFileHandle, filesDelivered)
    }

    ghost function Dirs(): T.Table
      reads this
    {
      TableOf(dirRecord, dirHandles, nextDirHandle, dirsDelivered)
    }

    ghost function Poll(): P.Link
      reads this
    {
      LinkOf(linkRecord, pollState, pollEvents, nextPollState)
    }

    ghost function Clock(): Timer
      reads this
    {
      Timer(serviceTimerInitialized, serviceTimer)
    }

    ghost function View(): Wrap
      reads this, registry
    {
      Wrap(self, Shared(Names(registry.contexts), registry.live), context, connected, disconnecting,
           Clock(), cleanupContextPending, cleanupRefHeld, scheduleFailed,
           Heap(), Files(), Dirs(), Poll(), faults)
    }

    /** Writing to the fields of one part of the state changes no other part. */
    twostate lemma OnlyLedger()
      requires unchanged(registry`contexts, registry`live, this`context, this`connected, this`disconnecting,
                         this`serviceTimer, this`serviceTimerInitialized, this`cleanupContextPending,
                         this`cleanupRefHeld, this`scheduleFailed, this`fileHandles, this`nextFileHandle,
                         this`fileRecord, this`filesDelivered, this`dirHandles, this`nextDirHandle, this`dirRecord,
                         this`dirsDelivered, this`pollState, this`pollEvents, this`linkRecord, this`nextPollState,
                         this`faults)
      ensures View() == old(View()).(ledger := Heap())
    {
      hide LedgerOf, TableOf, LinkOf, Names;
    }

    /** See OnlyLedger. */
    twostate lemma OnlyClock()
      requires unchanged(registry`contexts, registry`live, this`context, this`connected, this`disconnecting,
                         this`cleanupContextPending, this`cleanupRefHeld, this`scheduleFailed, this`record,
                         this`operations, this`promises, this`nextAddress, this`pending,
                         this`deferredCleanupOperations, this`outstanding, this`references, this`fileHandles,
                         this`nextFileHandle, this`fileRecord, this`filesDelivered, this`dirHandles,
                         this`nextDirHandle, this`dirRecord, this`dirsDelivered, this`pollState, this`pollEvents,
                         this`linkRecord, this`nextPollState, this`faults)
      ensures View() == old(View()).(timer := Clock())
    {
      hide LedgerOf, TableOf, LinkOf, Names;
    }

    /** See OnlyLedger. */
    twostate lemma OnlyCleanup()
      requires unchanged(registry`contexts, registry`live, this`context, this`connected, this`disconnecting,
                         this`fileHandles, this`nextFileHandle, this`fileRecord, this`filesDelivered,
                         this`dirHandles, this`nextDirHandle, this`dirRecord, this`dirsDelivered, this`pollState,
                         this`pollEvents, this`linkRecord, this`nextPollState, this`faults)
      ensures View() == old(View()).(timer := Clock(), cleanupPending := cleanupContextPending,
                                     cleanupRef := cleanupRefHeld, scheduleFailed := scheduleFailed, ledger := Heap())
    {
      hide LedgerOf, TableOf, LinkOf, Names;
    }

    /** See OnlyLedger. */
    twostate lemma OnlyFiles()
      requires unchanged(registry`contexts, registry`live, this`context, this`connected, this`disconnecting,
                         this`serviceTimer, this`serviceTimerInitialized, this`cleanupContextPending,
                         this`cleanupRefHeld, this`scheduleFailed, this`record, this`operations, this`promises,
                         this`nextAddress, this`pending, this`deferredCleanupOperations, this`outstanding,
                         this`references, this`dirHandles, this`nextDirHandle, this`dirRecord, this`dirsDelivered,
                         this`pollState, this`pollEvents, this`linkRecord, this`nextPollState, this`faults)
      ensures View() == old(View()).(files := Files())
    {
      hide LedgerOf, TableOf, LinkOf, Names;
    }

    /** See OnlyLedger. */
    twostate lemma OnlyDirs()
      requires unchanged(registry`contexts, registry`live, this`context, this`connected, this`disconnecting,
                         this`serviceTimer, this`serviceTimerInitialized, this`cleanupContextPending,
                         this`cleanupRefHeld, this`scheduleFailed, this`record, this`operations, this`promises,
                         this`nextAddress, this`pending, this`deferredCleanupOperations, this`outstanding,
                         this`references, this`fileHandles, this`nextFileHandle, this`fileRecord,
                         this`filesDelivered, this`pollState, this`pollEvents, this`linkRecord, this`nextPollState,
                         this`faults)
      ensures View() == old(View()).(dirs := Dirs())
    {
      hide LedgerOf, TableOf, LinkOf, Names;
    }

    /** See OnlyLedger. */
    twostate lemma OnlyPoll()
      requires unchanged(registry`contexts, registry`live, this`context, this`connected, this`disconnecting,
                         this`serviceTimer, this`serviceTimerInitialized, this`cleanupContextPending,
                         this`cleanupRefHeld, this`scheduleFailed, this`record, this`operations, this`promises,
                         this`nextAddress, this`pending, this`deferredCleanupOperations, this`outstanding,
                         this`references, this`fileHandles, this`nextFileHandle, this`fileRecord,
                         this`filesDelivered, this`dirHandles, this`nextDirHandle, this`dirRecord,
                         this`dirsDelivered, this`faults)
      ensures View() == old(View()).(link := Poll())
    {
      hide LedgerOf, TableOf, LinkOf, Names;
    }

    /** See OnlyLedger. */
    twostate lemma OnlyFlags()
      requires unchanged(registry`contexts, registry`live, this`serviceTimer, this`serviceTimerInitialized,
                         this`cleanupContextPending, this`cleanupRefHeld, this`scheduleFailed, this`record,
                         this`operations, this`promises, this`nextAddress, this`pending,
                         this`deferredCleanupOperations, this`outstanding, this`references, this`fileHandles,
                         this`nextFileHandle, this`fileRecord, this`filesDelivered, this`dirHandles,
                         this`nextDirHandle, this`dirRecord, this`dirsDelivered, this`faults,
                         this`context, this`pollState, this`pollEvents, this`linkRecord, this`nextPollState)
      ensures View() == old(View()).(connected := connected, disconnecting := disconnecting)
    {
      hide LedgerOf, TableOf, LinkOf, Names;
    }

    /** See OnlyLedger. */
    twostate lemma OnlyShared()
      requires unchanged(this`connected, this`disconnecting, this`serviceTimer, this`serviceTimerInitialized,
                         this`record, this`operations, this`promises, this`nextAddress, this`pending,
                         this`deferredCleanupOperations, this`outstanding, this`references, this`fileHandles,
                         this`nextFileHandle, this`fileRecord, this`filesDelivered, this`dirHandles,
                         this`nextDirHandle, this`dirRecord, this`dirsDelivered, this`pollState, this`pollEvents,
                         this`linkRecord, this`nextPollState)
      ensures View() == old(View()).(context := context, cleanupPending := cleanupContextPending,
                                     cleanupRef := cleanupRefHeld, scheduleFailed := scheduleFailed, faults := faults,
                                     shared := Shared(Names(registry.contexts), registry.live))
    {
      hide LedgerOf, TableOf, LinkOf, Names;
    }

    constructor (self: WrapId, registry: ContextRegistry)
      ensures this.self == self && this.registry == registry
      ensures View() == NewWrap(self, Shared(Names(registry.contexts), registry.live))
    {
      this.self, this.registry := self, registry;
      context, connected, disconnecting := None, false, false;
      pollEvents, pollState := 0, None;
      serviceTimer, serviceTimerInitialized := Off, false;
      cleanupContextPending, cleanupRefHeld := false, false;
      fileHandles, dirHandles, nextFileHandle, nextDirHandle := map[], map[], 1, 1;
      pending, deferredCleanupOperations := {}, [];
      operations, promises, nextAddress, nextPollState := map[], map[], 0, 0;
      outstanding, filesDelivered, dirsDelivered, references := {}, 0, 0, 0;
      record, fileRecord, dirRecord, linkRecord := EMPTY, T.EMPTY, T.EMPTY, P.IDLE;
      scheduleFailed, faults := false, {};
    }

    // ---- Operations -----------------------------------------------------------------------

    /** `new PendingOperation`. */
    method NewOperation(kind: Kind, startedAt: nat, path: Text) returns (id: OpId)
      modifies this`operations, this`promises, this`nextAddress, this`record
      ensures Heap() == Create(old(Heap()), kind, startedAt, path)
      ensures View() == old(View()).(ledger := Heap())
      ensures id == old(nextAddress)
    {
      hide View;
      ghost var m := Heap();
      id := nextAddress;
      operations := operations[id := Operation(kind, false, startedAt, path)];
      promises := promises[id := Promise(kind, [])];
      nextAddress := id + 1;
      record := Create(m, kind, startedAt, path);
      OnlyLedger();
    }

    /** `delete operation`. */
    method DeleteOperation(id: OpId)
      modifies this`operations, this`record
      ensures Heap() == Delete(old(Heap()), id)
      ensures View() == old(View()).(ledger := Heap())
    {
      hide View;
      ghost var m := Heap();
      operations := operations - {id};
      record := Delete(m, id);
      OnlyLedger();
    }

    /** `deferred.Resolve` or `deferred.Reject`, and the `settled` flag. */
    method SettleOperation(id: OpId, outcome: Outcome)
      modifies this`operations, this`promises, this`record
      ensures Heap() == Settle(old(Heap()), id, outcome)
      ensures View() == old(View()).(ledger := Heap())
    {
      hide View;
      ghost var m := Heap();
      if id in operations {
        var outcomes := if id in promises then promises[id].outcomes else [];
        promises := promises[id := Promise(operations[id].kind, outcomes + [outcome])];
        operations := operations[id := operations[id].(settled := true)];
      }
      record := Settle(m, id, outcome);
      OnlyLedger();
    }

    /** A promise settled at birth, as RejectNotReady makes them. */
    method Respond(kind: Kind, outcome: Outcome) returns (promise: OpId)
      modifies this`promises, this`nextAddress, this`record
      ensures Heap() == Answer(old(Heap()), kind, outcome)
      ensures View() == old(View()).(ledger := Heap())
      ensures promise == old(nextAddress)
    {
      hide View;
      ghost var m := Heap();
      promise := nextAddress;
      promises := promises[promise := Promise(kind, [outcome])];
      nextAddress := promise + 1;
      record := Answer(m, kind, outcome);
      OnlyLedger();
    }

    method RejectPending(id: OpId, code: Code)
      modifies this`operations, this`promises, this`record
      ensures Heap() == Reject(old(Heap()), id, code)
      ensures View() == old(View()).(ledger := Heap())
    {
      hide View;
      ghost var m := Heap();
      if id in operations && operations[id].settled {
        RejectSettled(m, id, code);
        OnlyLedger();
        return;
      }
      SettleOperation(id, Rejected(code));
      record := Reject(m, id, code);
      OnlyLedger();
    }

    method RejectAllPending(code: Code)
      modifies this`operations, this`promises, this`record
      ensures Heap() == RejectEach(old(Heap()), old(pending), code)
      ensures View() == old(View()).(ledger := Heap())
    {
      hide RejectEach, Reject, LedgerOf, View;
      ghost var m := Heap();
      var remaining := pending;
      RejectNone(m, code);
      assert pending - remaining == {};
      while remaining != {}
        invariant remaining <= pending
        invariant Heap() == RejectEach(m, pending - remaining, code)
        decreases remaining
      {
        var id :| id in remaining;
        RejectEachStep(m, pending - remaining, id, code);
        RejectPending(id, code);
        assert (pending - remaining) + {id} == pending - (remaining - {id});
        remaining := remaining - {id};
      }
      assert pending - remaining == pending;
      OnlyLedger();
    }

    /** Takes an operation off the pending set and drops its reference. */
    method ErasePending(id: OpId)
      modifies this`pending, this`references
      ensures Heap() == old(Heap()).(pending := old(pending) - {id},
        refs := if id in old(pending) then old(Heap()).refs - 1 else old(Heap()).refs)
      ensures View() == old(View()).(ledger := Heap())
    {
      hide View;
      if id in pending {
        pending := pending - {id};
        references := references - 1;
      } else {
        assert pending - {id} == pending;
      }
      OnlyLedger();
    }

    /** Takes an operation off the deferred list. */
    method EraseDeferred(id: OpId)
      modifies this`deferredCleanupOperations
      ensures Heap() == old(Heap()).(deferred := old(Heap()).deferred - multiset{id})
      ensures View() == old(View()).(ledger := Heap())
    {
      hide View;
      var k := 0;
      while k < |deferredCleanupOperations| && deferredCleanupOperations[k] != id
        invariant 0 <= k <= |deferredCleanupOperations|
        invariant id !in deferredCleanupOperations[..k]
        invariant deferredCleanupOperations == old(deferredCleanupOperations)
      {
        k := k + 1;
      }
      EraseFirst(deferredCleanupOperations, id, k);
      if k < |deferredCleanupOperations| {
        deferredCleanupOperations := deferredCleanupOperations[..k] + deferredCleanupOperations[k + 1..];
      }
      OnlyLedger();
    }

    /** The body of the loop of QueuePendingForCleanup. */
    method DeferOperation(id: OpId)
      requires id in pending
      modifies this`operations, this`promises, this`record, this`pending, this`references,
               this`deferredCleanupOperations
      ensures Heap() == DeferOne(old(Heap()), id)
      ensures View() == old(View()).(ledger := Heap())
      ensures pending == old(pending) - {id}
    {
      hide Reject, View;
      RejectPending(id, ConnectionLost);
      ErasePending(id);
      deferredCleanupOperations := deferredCleanupOperations + [id];
      OnlyLedger();
    }

    method QueuePendingForCleanup(keep: Option<OpId>)
      modifies this
      ensures View() == QueueForCleanup(old(View()), if keep.Some? then {keep.value} else {})
    {
      hide Defer, LedgerOf, TableOf, LinkOf;
      DeferPending(keep);
      StopIdleTimer();
    }

    /** The loop of QueuePendingForCleanup. */
    method DeferPending(keep: Option<OpId>)
      modifies this`operations, this`promises, this`record, this`pending, this`references,
               this`deferredCleanupOperations
      ensures Heap() == Defer(old(Heap()), old(pending) - if keep.Some? then {keep.value} else {})
      ensures View() == old(View()).(ledger := Heap())
    {
      hide Defer, DeferOne, LedgerOf, View;
      ghost var m := Heap();
      var moved := pending - if keep.Some? then {keep.value} else {};
      var remaining := moved;
      DeferNone(m);
      assert moved - remaining == {};
      while remaining != {}
        invariant remaining <= moved && remaining <= pending
        invariant Heap() == Defer(m, moved - remaining)
        decreases remaining
      {
        var id :| id in remaining;
        DeferStep(m, moved - remaining, id);
        DeferOperation(id);
        assert (moved - remaining) + {id} == moved - (remaining - {id});
        remaining := remaining - {id};
      }
      assert moved - remaining == moved;
      OnlyLedger();
    }

    /** Stops the service timer when nothing needs it. */
    method StopIdleTimer()
      modifies this`serviceTimer
      ensures View() == old(View()).(timer := IdleTimer(old(View()), old(View()).ledger))
    {
      hide LedgerOf, TableOf, LinkOf, Names;
      if pending == {} && !cleanupContextPending {
        StopServiceTimer();
      }
    }

    method DrainDeferredCleanupOperations()
      modifies this`operations, this`record, this`deferredCleanupOperations
      ensures Heap() == Drain(old(Heap()))
      ensures View() == old(View()).(ledger := Heap())
    {
      hide Delete, Drain, View;
      ghost var m := Heap();
      var ids := deferredCleanupOperations;
      for k := 0 to |ids|
        invariant Heap() == DeleteEach(m, ids[..k])
        invariant deferredCleanupOperations == ids
      {
        assert ids[..k + 1][..k] == ids[..k];
        DeleteOperation(ids[k]);
      }
      assert ids[..|ids|] == ids;
      DrainIsDeleteEach(m, ids);
      deferredCleanupOperations := [];
      OnlyLedger();
    }

    method FinishPending(id: OpId)
      modifies this
      ensures View() == Finish(old(View()), id)
    {
      hide Delete, Unlist, LedgerOf, TableOf, LinkOf, Names;
      assert View().ledger == Heap();
      hide View;
      TakeOff(id);
      StopIdleTimer();
      DeleteOperation(id);
    }

    /** Takes an operation off both collections. */
    method TakeOff(id: OpId)
      modifies this`pending, this`references, this`deferredCleanupOperations
      ensures Heap() == Unlist(old(Heap()), id)
      ensures View() == old(View()).(ledger := Heap())
    {
      hide LedgerOf, View;
      ErasePending(id);
      EraseDeferred(id);
    }

    // ---- Timer ----------------------------------------------------------------------------

    /** EnsureServiceTimerInitialized and uv_timer_start. */
    method ArmServiceTimer(mode: TimerMode, reply: Reply) returns (ok: bool)
      modifies this`serviceTimer, this`serviceTimerInitialized
      ensures View() == old(View()).(timer := Arm(old(View()).timer, mode, reply))
      ensures ok == Arms(old(View()).timer, reply)
    {
      ok := StartTimer(mode, reply);
      OnlyClock();
    }

    /** The body of ArmServiceTimer. */
    method StartTimer(mode: TimerMode, reply: Reply) returns (ok: bool)
      modifies this`serviceTimer, this`serviceTimerInitialized
      ensures Clock() == Arm(old(Clock()), mode, reply)
      ensures ok == Arms(old(Clock()), reply)
    {
      if reply.NoLoop? || (!serviceTimerInitialized && reply.InitFails?) {
        return false;
      }
      serviceTimerInitialized := true;
      if reply.StartFails? {
        return false;
      }
      serviceTimer := mode;
      return true;
    }

    method StopServiceTimer()
      modifies this`serviceTimer
      ensures View() == old(View()).(timer := Stopped(old(View()).timer))
    {
      hide LedgerOf, TableOf, LinkOf, Names;
      if !serviceTimerInitialized {
        return;
      }
      serviceTimer := Off;
    }

    method ScheduleDeferredCleanup(reply: Reply) returns (ok: bool)
      modifies this`serviceTimer, this`serviceTimerInitialized, this`cleanupContextPending, this`cleanupRefHeld,
               this`references, this`scheduleFailed
      ensures View() == ScheduleCleanup(old(View()), reply)
      ensures ok == Arms(old(View()).timer, reply)
    {
      ok := StartOneShot(reply);
      OnlyCleanup();
    }

    /** The body of ScheduleDeferredCleanup. */
    method StartOneShot(reply: Reply) returns (ok: bool)
      modifies this`serviceTimer, this`serviceTimerInitialized, this`cleanupContextPending, this`cleanupRefHeld,
               this`references, this`scheduleFailed
      ensures Clock() == Arm(old(Clock()), OneShot, reply)
      ensures ok == Arms(old(Clock()), reply)
      ensures scheduleFailed == (old(scheduleFailed) || !ok)
      ensures CanInitialize(old(Clock()), reply) ==> cleanupContextPending == ok && cleanupRefHeld == ok
      ensures !CanInitialize(old(Clock()), reply) ==>
        cleanupContextPending == old(cleanupContextPending) && cleanupRefHeld == old(cleanupRefHeld)
      ensures references == old(references) + (if cleanupRefHeld then 1 else 0) - (if old(cleanupRefHeld) then 1 else 0)
    {
      if reply.NoLoop? || (!serviceTimerInitialized && reply.InitFails?) {
        scheduleFailed := true;
        return false;
      }
      serviceTimerInitialized := true;
      cleanupContextPending := true;
      if !cleanupRefHeld {
        references := references + 1;
        cleanupRefHeld := true;
      }
      if reply.StartFails? {
        cleanupContextPending := false;
        if cleanupRefHeld {
          references := references - 1;
          cleanupRefHeld := false;
        }
        scheduleFailed := true;
        return false;
      }
      serviceTimer := OneShot;
      return true;
    }

    // ---- Handle tables --------------------------------------------------------------------

    /** `file_handles_.emplace(next_file_handle_++, handle)`. */
    method AddFile(path: Text) returns (id: nat)
      modifies this`fileHandles, this`nextFileHandle, this`filesDelivered, this`fileRecord
      ensures View() == old(View()).(files := T.Insert(old(Files()), path))
      ensures id == old(nextFileHandle)
    {
      hide View;
      ghost var t := Files();
      id := nextFileHandle;
      if id !in fileHandles {
        fileHandles := fileHandles[id := T.Entry(filesDelivered, path)];
      }
      nextFileHandle := (id + 1) % T.ID_SPACE;
      filesDelivered := filesDelivered + 1;
      fileRecord := T.Insert(t, path);
      OnlyFiles();
    }

    method AddDir(path: Text) returns (id: nat)
      modifies this`dirHandles, this`nextDirHandle, this`dirsDelivered, this`dirRecord
      ensures View() == old(View()).(dirs := T.Insert(old(Dirs()), path))
      ensures id == old(nextDirHandle)
    {
      hide View;
      ghost var t := Dirs();
      id := nextDirHandle;
      if id !in dirHandles {
        dirHandles := dirHandles[id := T.Entry(dirsDelivered, path)];
      }
      nextDirHandle := (id + 1) % T.ID_SPACE;
      dirsDelivered := dirsDelivered + 1;
      dirRecord := T.Insert(t, path);
      OnlyDirs();
    }

    /** A file handle delivered to nobody: closed on the spot if there is a context to close it on. */
    method RefuseFile(closed: bool)
      modifies this`filesDelivered, this`fileRecord
      ensures View() == old(View()).(files := if closed then T.Bounce(old(Files())) else T.Abandon(old(Files())))
    {
      hide View;
      ghost var t := Files();
      filesDelivered := filesDelivered + 1;
      fileRecord := if closed then T.Bounce(t) else T.Abandon(t);
      OnlyFiles();
    }

    method RefuseDir(closed: bool)
      modifies this`dirsDelivered, this`dirRecord
      ensures View() == old(View()).(dirs := if closed then T.Bounce(old(Dirs())) else T.Abandon(old(Dirs())))
    {
      hide View;
      ghost var t := Dirs();
      dirsDelivered := dirsDelivered + 1;
      dirRecord := if closed then T.Bounce(t) else T.Abandon(t);
      OnlyDirs();
    }

    /** `file_handles_.erase`; `handedOver` says whether a close call gets the native handle. */
    method EraseFile(id: nat, ghost handedOver: bool)
      requires id in fileHandles
      modifies this`fileHandles, this`fileRecord
      ensures View() == old(View()).(files :=
        if handedOver then T.HandOver(old(Files()), id) else T.Forget(old(Files()), id))
    {
      hide View;
      ghost var t := Files();
      fileHandles := fileHandles - {id};
      fileRecord := if handedOver then T.HandOver(t, id) else T.Forget(t, id);
      OnlyFiles();
    }

    method EraseDir(id: nat)
      requires id in dirHandles
      modifies this`dirHandles, this`dirRecord
      ensures View() == old(View()).(dirs := T.HandOver(old(Dirs()), id))
    {
      hide View;
      ghost var t := Dirs();
      dirHandles := dirHandles - {id};
      dirRecord := T.HandOver(t, id);
      OnlyDirs();
    }

    method ClearHandles()
      modifies this`fileHandles, this`fileRecord, this`dirHandles, this`dirRecord
      ensures View() == old(View()).(files := T.Clear(old(Files())), dirs := T.Clear(old(Dirs())))
    {
      hide LedgerOf, TableOf, LinkOf, Names, T.Clear;
      ClearFiles();
      ClearDirs();
    }

    method ClearFiles()
      modifies this`fileHandles, this`fileRecord
      ensures View() == old(View()).(files := T.Clear(old(Files())))
    {
      hide View;
      ghost var t := Files();
      fileHandles := map[];
      fileRecord := T.Clear(t);
      OnlyFiles();
    }

    method ClearDirs()
      modifies this`dirHandles, this`dirRecord
      ensures View() == old(View()).(dirs := T.Clear(old(Dirs())))
    {
      hide View;
      ghost var t := Dirs();
      dirHandles := map[];
      dirRecord := T.Clear(t);
      OnlyDirs();
    }

    // ---- Poll -----------------------------------------------------------------------------

    method StopPoll()
      modifies this`pollState, this`linkRecord
      ensures pollState.None?
      ensures View() == old(View()).(link := P.Stop(old(View()).link))
    {
      ghost var l := Poll();
      linkRecord := P.Stop(l);
      pollState := None;
      OnlyPoll();
    }

    /** uv_poll_start or uv_poll_stop. */
    method Watch()
      requires pollState.Some?
      modifies this`pollState, this`linkRecord
      ensures View() == old(View()).(link := P.Apply(old(View()).link))
    {
      ghost var l := Poll();
      linkRecord := P.Apply(l);
      pollState := Some(pollState.value.(watched := P.Translate(pollEvents)));
      OnlyPoll();
    }

    method RequestEvents(mask: int)
      modifies this`pollEvents, this`linkRecord
      ensures View() == old(View()).(link := P.Ask(old(View()).link, mask))
    {
      ghost var l := Poll();
      linkRecord := P.Ask(l, mask);
      pollEvents := mask;
      OnlyPoll();
    }

    /** `new PollState`; deleted again when libuv cannot initialize it. */
    method NewPollState(fd: int, initialized: bool)
      modifies this`pollState, this`nextPollState, this`linkRecord
      requires pollState.None?
      ensures View() == old(View()).(link :=
        if initialized then P.Attach(old(View()).link, fd) else P.AttachFailed(old(View()).link))
    {
      ghost var l := Poll();
      linkRecord := if initialized then P.Attach(l, fd) else P.AttachFailed(l);
      if initialized {
        pollState := Some(P.PollState(nextPollState, fd, P.NOTHING));
      }
      nextPollState := nextPollState + 1;
      OnlyPoll();
    }

    method OnPollClosed(id: nat)
      modifies this`linkRecord
      ensures View() == old(View()).(link := P.Free(old(View()).link, id))
    {
      linkRecord := P.Free(Poll(), id);
      OnlyPoll();
    }

    // ---- Teardown -------------------------------------------------------------------------

    /** CleanupContext up to the point where the registry forgets the context. */
    method Dismantle()
      modifies this, registry
      ensures View() == Lifecycle.Dismantle(old(View()))
    {
      hide LedgerOf, TableOf, LinkOf, P.Stop, T.Clear;
      StopPoll();
      StopServiceTimer();
      ClearHandles();
      Unregister();
    }

    method Unregister()
      modifies this`cleanupContextPending, registry
      ensures View() == old(View()).(cleanupPending := false, shared := match old(View()).context
        case None => old(View()).shared
        case Some(ctx) => old(View()).shared.(contexts := old(View()).shared.contexts - {ctx}))
    {
      cleanupContextPending := false;
      if context.Some? {
        registry.contexts := registry.contexts - {context.value};
        NamesWithout(old(registry.contexts), context.value);
      }
      OnlyShared();
    }

    /** smb2_destroy_context. */
    method DestroyContext(ctx: CtxId, script: Script)
      modifies this, registry
      ensures View() == Destroy(old(View()), ctx, script)
      decreases ScriptSize(script), 3
    {
      hide LedgerOf, TableOf, LinkOf, Names, View, RunScript, Marked, Destroyed;
      ghost var before := View();
      BeginDestroy(ctx);
      RunLibrary(ctx, script, true);
      EndDestroy(before, ctx);
    }

    /** Notes what is wrong with destroying the context now. */
    ghost method BeginDestroy(ctx: CtxId)
      modifies this`faults
      ensures View() == Marked(old(View()), ctx)
    {
      hide CleanDestroy;
      faults := Marked(View(), ctx).faults;
      OnlyShared();
    }

    /** libsmb2 forgets the context and whatever it still owed. */
    method EndDestroy(ghost before: Wrap, ctx: CtxId)
      modifies this`outstanding, this`faults, registry`live
      ensures View() == Destroyed(before, old(View()), ctx)
    {
      hide Quiet;
      ghost var loud := if Quiet(before, View()) then {} else {LoudTeardown};
      outstanding := {};
      OnlyLedger();
      label Silenced:
      faults := faults + loud;
      registry.live := registry.live - {ctx};
      OnlyShared@Silenced();
    }

    method CleanupContext(script: Script)
      modifies this, registry
      ensures View() == Lifecycle.CleanupContext(old(View()), script)
      decreases ScriptSize(script), 4
    {
      hide LedgerOf, TableOf, LinkOf, Names, Destroy, Lifecycle.Dismantle;
      Dismantle();
      if context.Some? {
        DestroyContext(context.value, script);
        DropContext();
      }
      ClearFlags();
    }

    method DropContext()
      modifies this`context
      ensures View() == old(View()).(context := None)
    {
      context := None;
      OnlyShared();
    }

    /** The flags and the event mask of a connection that is over. */
    method ClearFlags()
      modifies this`connected, this`disconnecting, this`pollEvents, this`linkRecord
      ensures View() == old(View()).(connected := false, disconnecting := false, link := P.Reset(old(View()).link))
    {
      hide LedgerOf, TableOf, LinkOf, Names, P.Reset;
      SetConnected(false);
      ForgetEvents();
    }

    method SetConnected(value: bool)
      modifies this`connected, this`disconnecting
      ensures View() == old(View()).(connected := value, disconnecting := false)
    {
      hide View;
      connected := value;
      disconnecting := false;
      OnlyFlags();
    }

    method ForgetEvents()
      modifies this`pollEvents, this`linkRecord
      ensures View() == old(View()).(link := P.Reset(old(Poll())))
    {
      hide View;
      ghost var l := Poll();
      linkRecord := P.Reset(l);
      pollEvents := 0;
      OnlyPoll();
    }

    method HandleFatal(script: Script)
      modifies this, registry
      ensures View() == Lifecycle.HandleFatal(old(View()), script)
      decreases ScriptSize(script), 7
    {
      hide LedgerOf, TableOf, LinkOf, Names, RejectEach, QueueForCleanup, Lifecycle.CleanupContext, Drain;
      RejectAllPending(ConnectionLost);
      QueuePendingForCleanup(None);
      CleanupContext(script);
      DrainDeferredCleanupOperations();
    }

    // ---- libsmb2 in control ---------------------------------------------------------------

    /** What libsmb2 does before it returns from a call on `ctx`. */
    method RunLibrary(ctx: CtxId, script: Script, dying: bool)
      modifies this, registry
      ensures View() == RunScript(old(View()), ctx, script, dying)
      decreases ScriptSize(script), 2
    {
      hide View, RunAct;
      for k := 0 to |script|
        invariant RunScript(View(), ctx, script[k..], dying) == RunScript(old(View()), ctx, script, dying)
      {
        ActFits(script, k);
        assert script[k..][1..] == script[k + 1..];
        Perform(ctx, script[k], dying);
      }
    }

    method Perform(ctx: CtxId, act: Act, dying: bool)
      modifies this, registry
      ensures View() == RunAct(old(View()), ctx, act, dying)
      decreases ActSize(act), 1
    {
      hide LedgerOf, TableOf, LinkOf, Names, Lifecycle.OnComplete, Lifecycle.FdChange, Lifecycle.EventsChange, Fired;
      match act
      case Complete(op, status, reply, nested) =>
        if op in outstanding {
          var reported := if dying then DyingStatus(operations, op, status) else status;
          Fire(op);
          OnComplete(op, reported, reply, nested);
        }
      case FdChanged(fd, add) =>
        AcceptedFdChange(View(), ctx, fd, add);
        OnFdChanged(ctx, fd, add, Accepted, []);
      case EventsChanged(mask) =>
        AcceptedEventsChange(View(), ctx, mask);
        OnEventsChanged(ctx, mask, Accepted, []);
    }

    /** libsmb2 calls back, so that it owes one callback less. */
    method Fire(op: OpId)
      modifies this`outstanding
      ensures View() == old(View()).(ledger := Fired(old(View()).ledger, op))
    {
      outstanding := outstanding - {op};
      OnlyLedger();
    }

    /** A callback for a context that the registry has under another connection's name would go
        to that connection; here it is only noted. */
    method OnFdChanged(ctx: CtxId, fd: int, add: bool, reply: Reply, teardown: Script)
      modifies this, registry
      ensures View() == Lifecycle.FdChange(old(View()), ctx, fd, add, reply, teardown)
      decreases ScriptSize(teardown), 11
    {
      hide LedgerOf, TableOf, LinkOf, Lifecycle.StartPoll, P.Stop;
      if ctx in registry.contexts {
        var owner := registry.contexts[ctx];
        if owner.self != self {
          NoteMisroute();
        } else if add {
          StartPoll(fd, reply, teardown);
        } else {
          StopPoll();
        }
      }
    }

    method OnEventsChanged(ctx: CtxId, mask: int, reply: Reply, teardown: Script)
      modifies this, registry
      ensures View() == Lifecycle.EventsChange(old(View()), ctx, mask, reply, teardown)
      decreases ScriptSize(teardown), 10
    {
      hide LedgerOf, TableOf, LinkOf, Lifecycle.ApplyPollEvents, P.Ask;
      if ctx in registry.contexts {
        var owner := registry.contexts[ctx];
        if owner.self != self {
          NoteMisroute();
        } else {
          RequestEvents(mask);
          ApplyPollEvents(reply, teardown);
        }
      }
    }

    ghost method NoteMisroute()
      modifies this`faults
      ensures View() == old(View()).(faults := old(View()).faults + {Misrouted})
    {
      faults := faults + {Misrouted};
      OnlyShared();
    }

    method ApplyPollEvents(reply: Reply, teardown: Script)
      modifies this, registry
      ensures View() == Lifecycle.ApplyPollEvents(old(View()), reply, teardown)
      decreases ScriptSize(teardown), 8
    {
      hide LedgerOf, TableOf, LinkOf, Names, Lifecycle.HandleFatal;
      if pollState.None? {
        assert View().(link := View().link) == View();
        return;
      }
      if P.Translate(pollEvents) != P.NOTHING && !reply.Accepted? {
        HandleFatal(teardown);
        return;
      }
      Watch();
    }

    method StartPoll(fd: int, reply: Reply, teardown: Script)
      modifies this, registry
      ensures View() == Lifecycle.StartPoll(old(View()), fd, reply, teardown)
      decreases ScriptSize(teardown), 10
    {
      hide LedgerOf, TableOf, LinkOf, Names, Lifecycle.HandleFatal, Lifecycle.ApplyPollEvents,
        P.Attach, P.AttachFailed, P.Stop;
      if pollState.Some? && pollState.value.fd == fd {
        return;
      }
      hide View;
      StopPoll();
      OpenPoll(fd, reply, teardown);
    }

    /** The rest of StartPoll, once no poll is left. */
    method OpenPoll(fd: int, reply: Reply, teardown: Script)
      requires pollState.None?
      modifies this, registry
      ensures var s := old(View());
        View() == if reply.NoLoop? then Lifecycle.HandleFatal(s, teardown)
                  else if reply.InitFails? then Lifecycle.HandleFatal(s.(link := P.AttachFailed(s.link)), teardown)
                  else Lifecycle.ApplyPollEvents(s.(link := P.Attach(s.link, fd)), reply, teardown)
      decreases ScriptSize(teardown), 9
    {
      hide View, Lifecycle.HandleFatal, Lifecycle.ApplyPollEvents, P.Attach, P.AttachFailed;
      if reply.NoLoop? {
        HandleFatal(teardown);
        return;
      }
      NewPollState(fd, !reply.InitFails?);
      if reply.InitFails? {
        HandleFatal(teardown);
        return;
      }
      ApplyPollEvents(reply, teardown);
    }

    /** Every libsmb2 call needs a live context. */
    ghost method TouchContext()
      modifies this`faults
      ensures View() == Touch(old(View()))
    {
      if context.None? || context.value !in registry.live {
        faults := faults + {DeadContextUsed};
        OnlyShared();
      }
    }

    // ---- Completion callbacks -------------------------------------------------------------

    method OnComplete(id: OpId, status: int, reply: Reply, nested: Script)
      modifies this, registry
      ensures View() == Lifecycle.OnComplete(old(View()), id, status, reply, nested)
      decreases ScriptSize(nested), 6
    {
      hide LedgerOf, TableOf, LinkOf, Names, Lifecycle.OnConnectComplete, Lifecycle.OnDisconnectComplete,
        Lifecycle.OnStatComplete, Lifecycle.OnOpenComplete, Lifecycle.OnOpendirComplete, Lifecycle.OnRequestComplete;
      assert View().ledger == Heap();
      hide View;
      if id !in operations {
        NoteUseAfterFree();
        return;
      }
      match operations[id].kind
      case ConnectOp => OnConnectComplete(id, status, nested);
      case DisconnectOp => OnDisconnectComplete(id, status, reply);
      case OpenOp => OnOpenComplete(id, status, nested);
      case _ => OnPlainComplete(id, status);
    }

    /** The callbacks that run no script. */
    method OnPlainComplete(id: OpId, status: int)
      requires id in operations
      modifies this
      ensures View() == match old(operations)[id].kind
        case StatOp => Lifecycle.OnStatComplete(old(View()), id, status)
        case OpendirOp => Lifecycle.OnOpendirComplete(old(View()), id, status)
        case _ => Lifecycle.OnRequestComplete(old(View()), id, status)
    {
      hide LedgerOf, TableOf, LinkOf, Names, Lifecycle.OnStatComplete, Lifecycle.OnOpendirComplete,
        Lifecycle.OnRequestComplete;
      assert View().ledger == Heap();
      hide View;
      match operations[id].kind
      case StatOp => OnStatComplete(id, status);
      case OpendirOp => OnOpendirComplete(id, status);
      case _ => OnRequestComplete(id, status);
    }

    ghost method NoteUseAfterFree()
      modifies this`record
      ensures View() == old(View()).(ledger := old(Heap()).(faults := old(Heap()).faults + {UseAfterFree}))
    {
      hide View;
      record := Heap().(faults := Heap().faults + {UseAfterFree});
      OnlyLedger();
    }

    method OnConnectComplete(id: OpId, status: int, nested: Script)
      requires id in operations
      modifies this, registry
      ensures View() == Lifecycle.OnConnectComplete(old(View()), id, status, nested)
      decreases ScriptSize(nested), 5
    {
      hide LedgerOf, TableOf, LinkOf, Names, Lifecycle.CleanupContext, Finish, Reject, Settle;
      if operations[id].settled {
        FinishPending(id);
        return;
      }
      if status < 0 {
        RejectPending(id, Classified(status));
        CleanupContext(nested);
        FinishPending(id);
        return;
      }
      SetConnected(true);
      SettleOperation(id, Resolved(Connection));
      FinishPending(id);
    }

    method OnDisconnectComplete(id: OpId, status: int, reply: Reply)
      requires id in operations
      modifies this
      ensures View() == Lifecycle.OnDisconnectComplete(old(View()), id, status, reply)
    {
      hide LedgerOf, TableOf, LinkOf, Names, Finish, Reject, Settle, QueueForCleanup, ScheduleCleanup,
        P.Stop, P.Reset, T.Clear;
      SettleDisconnect(id, status);
      StopPoll();
      ClearHandles();
      ClearFlags();
      QueuePendingForCleanup(Some(id));
      FinishPending(id);
      var _ := ScheduleDeferredCleanup(reply);
    }

    method SettleDisconnect(id: OpId, status: int)
      requires id in operations
      modifies this`operations, this`promises, this`record
      ensures var s := old(View());
        View() == if s.ledger.operations[id].settled then s
                  else if status < 0 then RejectOp(s, id, Classified(status))
                  else ResolveOp(s, id, Undefined)
    {
      hide LedgerOf, TableOf, LinkOf, Names, Reject, Settle;
      if !operations[id].settled && status < 0 {
        RejectPending(id, Classified(status));
      } else if !operations[id].settled {
        SettleOperation(id, Resolved(Undefined));
      }
    }

    method OnStatComplete(id: OpId, status: int)
      requires id in operations
      modifies this
      ensures View() == Lifecycle.OnStatComplete(old(View()), id, status)
    {
      hide LedgerOf, TableOf, LinkOf, Names, Finish, Reject, Settle;
      if operations[id].settled {
        FinishPending(id);
        return;
      }
      if status < 0 {
        RejectPending(id, Classified(status));
        FinishPending(id);
        return;
      }
      var path := operations[id].path;
      SettleOperation(id, Resolved(Named(path, Paths.Basename(path))));
      FinishPending(id);
    }

    method OnOpenComplete(id: OpId, status: int, nested: Script)
      requires id in operations
      modifies this, registry
      ensures View() == Lifecycle.OnOpenComplete(old(View()), id, status, nested)
      decreases ScriptSize(nested), 5
    {
      hide LedgerOf, TableOf, LinkOf, Names, Finish, Reject, Settle, RunScript, Touch, T.Insert, T.Bounce, T.Abandon;
      if operations[id].settled || disconnecting {
        if status == 0 {
          RefuseFile(context.Some?);
          if context.Some? {
            TouchContext();
            RunLibrary(context.value, nested, false);
          }
        }
        RejectPending(id, ConnectionLost);
        FinishPending(id);
        return;
      }
      if status < 0 {
        RejectPending(id, Classified(status));
        FinishPending(id);
        return;
      }
      var path := operations[id].path;
      var handle := AddFile(path);
      SettleOperation(id, Resolved(Number(handle)));
      FinishPending(id);
    }

    method OnOpendirComplete(id: OpId, status: int)
      requires id in operations
      modifies this
      ensures View() == Lifecycle.OnOpendirComplete(old(View()), id, status)
    {
      hide LedgerOf, TableOf, LinkOf, Names, Finish, Reject, Settle, Touch, T.Insert, T.Bounce, T.Abandon;
      if operations[id].settled || context.None? || disconnecting {
        if status == 0 {
          RefuseDir(context.Some?);
          if context.Some? {
            TouchContext();
          }
        }
        RejectPending(id, ConnectionLost);
        FinishPending(id);
        return;
      }
      if status < 0 {
        RejectPending(id, Classified(status));
        FinishPending(id);
        return;
      }
      var path := operations[id].path;
      var handle := AddDir(path);
      SettleOperation(id, Resolved(Number(handle)));
      FinishPending(id);
    }

    method OnRequestComplete(id: OpId, status: int)
      requires id in operations
      modifies this
      ensures View() == Lifecycle.OnRequestComplete(old(View()), id, status)
    {
      hide LedgerOf, TableOf, LinkOf, Names, Finish, Reject, Settle;
      if operations[id].settled {
        FinishPending(id);
        return;
      }
      if context.None? || disconnecting {
        RejectPending(id, ConnectionLost);
        FinishPending(id);
        return;
      }
      if status < 0 {
        RejectPending(id, Classified(status));
      } else {
        SettleOperation(id, Resolved(Reward(operations[id].kind, status)));
      }
      FinishPending(id);
    }

    // ---- Calls from JavaScript ------------------------------------------------------------

    /** RegisterPending. */
    method RegisterPending(id: OpId, reply: Reply, script: Script) returns (ok: bool)
      modifies this, registry
      ensures ok == Arms(old(View()).timer, reply)
      ensures var s := Listed(old(View()), id, reply);
        View() == if ok then s else Lifecycle.HandleFatal(s, script)
    {
      hide LedgerOf, TableOf, LinkOf, Names, Enlist, Lifecycle.HandleFatal;
      ListPending(id);
      ok := ArmServiceTimer(Tick, reply);
      if !ok {
        HandleFatal(script);
      }
    }

    method ListPending(id: OpId)
      modifies this`pending, this`references
      ensures View() == old(View()).(ledger := Enlist(old(Heap()), id))
    {
      hide View;
      pending := pending + {id};
      references := references + 1;
      OnlyLedger();
    }

    /** A request libsmb2 accepts: it now owes a callback. */
    method Submit(id: OpId)
      modifies this`outstanding, this`faults
      ensures View() == Owe(Touch(old(View())), id)
    {
      TouchContext();
      label Touched:
      outstanding := outstanding + {id};
      OnlyLedger@Touched();
    }

    method EnsureContext(choice: Option<CtxId>) returns (ok: bool)
      modifies this`context, registry
      ensures View() == Lifecycle.EnsureContext(old(View()), choice)
      ensures ok == View().context.Some?
    {
      if context.Some? {
        return true;
      }
      if choice.None? || choice.value in registry.live {
        return false;
      }
      var ctx := choice.value;
      context := Some(ctx);
      NamesWith(registry.contexts, ctx, this);
      registry.contexts := registry.contexts[ctx := this];
      registry.live := registry.live + {ctx};
      OnlyShared();
      return true;
    }

    method Connect(choice: Option<CtxId>, path: Text, now: nat, reply: Reply, rc: int, script: Script)
      returns (promise: OpId)
      modifies this, registry
      ensures View() == Lifecycle.Connect(old(View()), choice, path, now, reply, rc, script)
      ensures promise == old(nextAddress)
    {
      hide LedgerOf, TableOf, LinkOf, Names, Create, Enlist, Arm, Arms, Finish, RejectOp, Touch,
        Lifecycle.CleanupContext, Lifecycle.HandleFatal;
      var ok: bool;
      promise, ok := Prepare(choice, path, now);
      if ok {
        hide View;
        ConnectShare(promise, reply, rc, script);
      }
    }

    /** The beginning of Connect: the operation and its context. */
    method Prepare(choice: Option<CtxId>, path: Text, now: nat) returns (id: OpId, ok: bool)
      modifies this, registry
      ensures id == old(nextAddress)
      ensures ok == Lifecycle.EnsureContext(old(View()), choice).context.Some?
      ensures var s := Lifecycle.EnsureContext(old(View()), choice);
        View() == s.(ledger := if ok then Create(s.ledger, ConnectOp, now, path)
                               else Stillborn(s.ledger, ConnectOp, now, path, Rejected(NoContext)))
    {
      hide LedgerOf, TableOf, LinkOf, Names, Create, Settle, Delete, Lifecycle.EnsureContext;
      EnsureContextCommutes(View(), choice, Create(View().ledger, ConnectOp, now, path));
      assert View().ledger == Heap() && Heap().nextId == nextAddress;
      id := NewOperation(ConnectOp, now, path);
      ok := EnsureContext(choice);
      if !ok {
        SettleOperation(id, Rejected(NoContext));
        DeleteOperation(id);
      }
    }

    /** The end of Connect: registration and smb2_connect_share_async. */
    method ConnectShare(id: OpId, reply: Reply, rc: int, script: Script)
      modifies this, registry
      ensures var s := Listed(old(View()), id, reply);
        View() == if !Arms(old(View()).timer, reply) then Lifecycle.HandleFatal(s, script)
                  else if rc < 0
                  then Lifecycle.CleanupContext(Finish(RejectOp(Touch(s), id, Classified(rc)), id), script)
                  else Owe(Touch(s), id)
    {
      hide LedgerOf, TableOf, LinkOf, Names, Reject, Enlist, Finish, Touch, Lifecycle.CleanupContext,
        Lifecycle.HandleFatal;
      var ok := RegisterPending(id, reply, script);
      if !ok {
        return;
      }
      if rc < 0 {
        TouchContext();
        RejectPending(id, Classified(rc));
        FinishPending(id);
        CleanupContext(script);
      } else {
        Submit(id);
      }
    }

    /** `new` never returns the address of an operation that is pending. */
    method Disconnect(now: nat, reply: Reply, rc: int, script: Script) returns (promise: OpId)
      requires nextAddress !in pending
      modifies this, registry
      ensures View() == Lifecycle.Disconnect(old(View()), now, reply, rc, script)
      ensures promise == old(nextAddress)
    {
      hide LedgerOf, TableOf, LinkOf, Names, Create, RejectEach, Enlist, Arm, Arms, Finish, RejectOp, Touch, Stillborn,
        Lifecycle.CleanupContext, Lifecycle.HandleFatal;
      var ok: bool;
      promise, ok := BeginDisconnect(now);
      if ok {
        hide View;
        RejectEachNextId(old(Heap()), old(pending), ConnectionLost);
        DisconnectShare(promise, reply, rc, script);
      }
    }

    /** The beginning of Disconnect: from here on everybody else is rejected. */
    method BeginDisconnect(now: nat) returns (id: OpId, ok: bool)
      requires nextAddress !in pending
      modifies this
      ensures id == old(nextAddress)
      ensures ok == (old(context).Some? && old(connected))
      ensures var s := old(View());
        View() == if ok
                  then s.(disconnecting := true, ledger := Create(
                          RejectEach(s.ledger, s.ledger.pending, ConnectionLost), DisconnectOp, now, []))
                  else s.(ledger := Stillborn(s.ledger, DisconnectOp, now, [], Resolved(Undefined)))
    {
      hide LedgerOf, TableOf, LinkOf, Names, Create, Settle, Delete, RejectEach;
      RejectCreateCommute(Heap(), pending, ConnectionLost, DisconnectOp, now, []);
      id := NewOperation(DisconnectOp, now, []);
      ok := context.Some? && connected;
      if ok {
        SetDisconnecting();
        RejectAllPending(ConnectionLost);
      } else {
        SettleOperation(id, Resolved(Undefined));
        DeleteOperation(id);
      }
    }

    /** The end of Disconnect: registration and smb2_disconnect_share_async. */
    method DisconnectShare(id: OpId, reply: Reply, rc: int, script: Script)
      modifies this, registry
      ensures var s := Listed(old(View()), id, reply);
        View() == if !Arms(old(View()).timer, reply) then Lifecycle.HandleFatal(s, script)
                  else if rc < 0
                  then Finish(Lifecycle.CleanupContext(RejectOp(Touch(s), id, Classified(rc)), script), id)
                  else Owe(Touch(s), id)
    {
      hide LedgerOf, TableOf, LinkOf, Names, Reject, Enlist, Finish, Touch, Lifecycle.CleanupContext,
        Lifecycle.HandleFatal;
      var ok := RegisterPending(id, reply, script);
      if !ok {
        return;
      }
      if rc < 0 {
        TouchContext();
        RejectPending(id, Classified(rc));
        CleanupContext(script);
        FinishPending(id);
      } else {
        Submit(id);
      }
    }

    method SetDisconnecting()
      modifies this`disconnecting
      ensures View() == old(View()).(disconnecting := true)
    {
      disconnecting := true;
      OnlyFlags();
    }

    /** Stat, Open, Read, Write, Ftruncate, Close, Mkdir, Rmdir, Unlink, Rename and Opendir. */
    method Request(kind: Kind, path: Text, handle: nat, tooLong: bool, now: nat, reply: Reply, rc: int, script: Script)
      returns (promise: OpId)
      modifies this, registry
      ensures View() == Lifecycle.Request(old(View()), kind, path, handle, tooLong, now, reply, rc, script)
      ensures promise == old(nextAddress)
    {
      hide LedgerOf, TableOf, LinkOf, Names, Answer, AfterRequest, Concluded, Enlisted, Arms, Acceptable;
      var accepted := Accepts(kind, handle, tooLong);
      assert View().ledger == Heap();
      hide View;
      if accepted {
        promise := AcceptRequest(kind, path, handle, tooLong, now, reply, rc, script);
      } else {
        promise := Respond(kind, Rejected(InvalidState));
      }
    }

    method Accepts(kind: Kind, handle: nat, tooLong: bool) returns (ok: bool)
      ensures ok == Acceptable(View(), kind, handle, tooLong)
    {
      hide LedgerOf, TableOf, LinkOf, Names, NeedsFile;
      ok := context.Some? && connected && !disconnecting
            && (NeedsFile(kind) ==> handle in fileHandles)
            && !((kind.ReadOp? || kind.WriteOp?) && tooLong);
    }

    method AcceptRequest(kind: Kind, path: Text, handle: nat, ghost tooLong: bool, now: nat, reply: Reply,
                         rc: int, script: Script)
      returns (promise: OpId)
      requires Acceptable(View(), kind, handle, tooLong)
      modifies this, registry
      ensures View() == Lifecycle.Request(old(View()), kind, path, handle, tooLong, now, reply, rc, script)
      ensures promise == old(nextAddress)
    {
      hide LedgerOf, TableOf, LinkOf, Names, Create, Enlist, AfterRequest, Concluded, Arm, Arms;
      assert View().ledger.nextId == nextAddress && View().files.entries == fileHandles;
      hide View;
      var where := TakeEntry(kind, path, handle, Arms(View().timer, reply));
      promise := NewOperation(kind, now, where);
      Send(promise, reply, rc, script);
    }

    /** The path a request is about; a close takes its entry out of the table. */
    method TakeEntry(kind: Kind, path: Text, handle: nat, ghost armed: bool) returns (where: Text)
      requires NeedsFile(kind) ==> handle in fileHandles
      modifies this`fileHandles, this`fileRecord
      ensures View() == old(View()).(files := AfterRequest(old(View()), kind, handle, armed))
      ensures where == if NeedsFile(kind) then old(fileHandles)[handle].path else path
    {
      hide LedgerOf, TableOf, LinkOf, Names, T.HandOver, T.Forget;
      where := path;
      if NeedsFile(kind) {
        where := fileHandles[handle].path;
        if kind.CloseOp? {
          EraseFile(handle, armed);
        }
      }
    }

    /** The end of a request: registration and the libsmb2 call. */
    method Send(id: OpId, reply: Reply, rc: int, script: Script)
      modifies this, registry
      ensures var s := Listed(old(View()), id, reply);
        View() == Concluded(s, id, Arms(old(View()).timer, reply), rc, script)
    {
      hide LedgerOf, TableOf, LinkOf, Names, Reject, Enlist, Finish, Touch, Lifecycle.HandleFatal;
      var ok := RegisterPending(id, reply, script);
      if !ok {
        return;
      }
      if rc < 0 {
        TouchContext();
        RejectPending(id, Classified(rc));
        FinishPending(id);
      } else {
        Submit(id);
      }
    }

    method Readdir(handle: nat, entry: Option<Text>) returns (promise: OpId)
      modifies this
      ensures View() == Lifecycle.Readdir(old(View()), handle, entry)
      ensures promise == old(nextAddress)
    {
      hide LedgerOf, TableOf, LinkOf, Names, Answer;
      if context.None? || !connected || disconnecting || handle !in dirHandles {
        promise := Respond(ReaddirOp, Rejected(InvalidState));
        return;
      }
      TouchContext();
      if entry.None? {
        promise := Respond(ReaddirOp, Resolved(Null));
        return;
      }
      var fullPath := Paths.Join(dirHandles[handle].path, entry.value);
      promise := Respond(ReaddirOp, Resolved(Named(fullPath, entry.value)));
    }

    method Closedir(handle: nat) returns (promise: OpId)
      modifies this
      ensures View() == Lifecycle.Closedir(old(View()), handle)
      ensures promise == old(nextAddress)
    {
      hide LedgerOf, TableOf, LinkOf, Names, Answer, T.HandOver;
      if context.None? || !connected || disconnecting || handle !in dirHandles {
        promise := Respond(ClosedirOp, Rejected(InvalidState));
        return;
      }
      TouchContext();
      EraseDir(handle);
      promise := Respond(ClosedirOp, Resolved(Undefined));
    }

    // ---- Calls from libuv -----------------------------------------------------------------

    method OnServiceTimer(script: Script, rc: int, teardown: Script)
      modifies this, registry
      ensures View() == Lifecycle.OnServiceTimer(old(View()), script, rc, teardown)
    {
      hide LedgerOf, TableOf, LinkOf, Names, Drain, RunScript, Touch, Lifecycle.CleanupContext, Lifecycle.HandleFatal;
      ExpireOneShot();
      if cleanupContextPending {
        CleanupContext(script);
        DrainDeferredCleanupOperations();
        ReleaseCleanup();
        return;
      }
      if context.None? {
        return;
      }
      TouchContext();
      RunLibrary(context.value, script, false);
      if rc < 0 {
        HandleFatal(teardown);
      }
    }

    /** libuv stops a one-shot timer before it calls back. */
    method ExpireOneShot()
      modifies this`serviceTimer
      ensures var s := old(View());
        View() == if s.timer.mode.OneShot? then s.(timer := s.timer.(mode := Off)) else s
    {
      if serviceTimer.OneShot? {
        serviceTimer := Off;
        OnlyClock();
      }
    }

    /** Drops the reference of a deferred cleanup. */
    method ReleaseCleanup()
      modifies this`cleanupRefHeld, this`references
      ensures var s := old(View());
        View() == if s.cleanupRef then s.(cleanupRef := false, ledger := AddRefs(s.ledger, -1)) else s
    {
      if cleanupRefHeld {
        cleanupRefHeld := false;
        references := references - 1;
        OnlyCleanup();
      }
    }

    method OnPollEvent(status: int, readable: bool, writable: bool, script: Script, rc: int, reply: Reply,
                       teardown: Script)
      modifies this, registry
      ensures View() == Lifecycle.OnPollEvent(old(View()), status, readable, writable, script, rc, reply, teardown)
    {
      hide LedgerOf, TableOf, LinkOf, Names, RunScript, Touch, Lifecycle.ApplyPollEvents, Lifecycle.HandleFatal;
      if context.None? {
        return;
      }
      if status < 0 {
        HandleFatal(teardown);
        return;
      }
      if !readable && !writable {
        return;
      }
      TouchContext();
      RunLibrary(context.value, script, false);
      if rc < 0 {
        HandleFatal(teardown);
        return;
      }
      ApplyPollEvents(reply, teardown);
    }

    /** The destructor. */
    method Finalize(script: Script)
      modifies this, registry
      ensures View() == Lifecycle.Finalize(old(View()), script)
    {
      hide LedgerOf, TableOf, LinkOf, Names, Drain, Lifecycle.CleanupContext;
      CleanupContext(script);
      DrainDeferredCleanupOperations();
    }

    // ---- Every entry ----------------------------------------------------------------------

    /** One entry into the connection from outside, whoever makes it. */
    method Receive(e: Event)
      requires Possible(View(), e) && nextAddress !in pending
      modifies this, registry
      ensures View() == Step(old(View()), e)
    {
      hide LedgerOf, TableOf, LinkOf, Names, Possible, Lifecycle.Connect, Lifecycle.Disconnect, Lifecycle.Request,
        Lifecycle.Readdir, Lifecycle.Closedir, Lifecycle.OnServiceTimer, Lifecycle.OnPollEvent, FdChange, EventsChange,
        Lifecycle.Finalize, P.Free;
      hide View;
      match e
      case DoConnect(choice, path, now, reply, rc, script) =>
        var _ := Connect(choice, path, now, reply, rc, script);
      case DoDisconnect(now, reply, rc, script) =>
        var _ := Disconnect(now, reply, rc, script);
      case DoRequest(kind, path, handle, tooLong, now, reply, rc, script) =>
        var _ := Request(kind, path, handle, tooLong, now, reply, rc, script);
      case DoReaddir(handle, entry) =>
        var _ := Readdir(handle, entry);
      case DoClosedir(handle) =>
        var _ := Closedir(handle);
      case TimerFires(script, rc, teardown) =>
        OnServiceTimer(script, rc, teardown);
      case PollFires(status, readable, writable, script, rc, reply, teardown) =>
        OnPollEvent(status, readable, writable, script, rc, reply, teardown);
      case FdMoves(ctx, fd, add, reply, teardown) =>
        OnFdChanged(ctx, fd, add, reply, teardown);
      case MaskMoves(ctx, mask, reply, teardown) =>
        OnEventsChanged(ctx, mask, reply, teardown);
      case PollCloses(id) =>
        OnPollClosed(id);
      case Collected(script) =>
        Finalize(script);
    }
  }

  /** A steady connection never has the next address on its pending set, and every step leaves
      it steady; so Receive can always be called again. */
  lemma AddressIsFresh(s: Wrap, e: Event)
    requires Steady(s, {})
    ensures s.ledger.nextId !in s.ledger.pending
    ensures Steady(Step(s, e), {}) && Step(s, e).ledger.nextId !in Step(s, e).ledger.pending
  {
    hide Step;
    StepKeeps(s, e);
    Membership(s.ledger, {}, s.cleanupRef);
    Membership(Step(s, e).ledger, {}, Step(s, e).cleanupRef);
  }

  lemma RejectEachNextId(m: Ledger, ids: set<OpId>, code: Code)
    ensures RejectEach(m, ids, code).nextId == m.nextId
  {
  }

  lemma EnsureContextCommutes(s: Wrap, choice: Option<CtxId>, m: Ledger)
    ensures Lifecycle.EnsureContext(s.(ledger := m), choice) == Lifecycle.EnsureContext(s, choice).(ledger := m)
    ensures Lifecycle.EnsureContext(s, choice).ledger == s.ledger
  {
  }

  lemma NamesWithout(contexts: map<CtxId, SmbConnectionWrap>, ctx: CtxId)
    ensures Names(contexts - {ctx}) == Names(contexts) - {ctx}
  {
  }

  lemma NamesWith(contexts: map<CtxId, SmbConnectionWrap>, ctx: CtxId, owner: SmbConnectionWrap)
    ensures Names(contexts[ctx := owner]) == Names(contexts)[ctx := owner.self]
  {
  }

  /** While libuv accepts, no descriptor or mask that libsmb2 reports can be fatal. */
  lemma AcceptedFdChange(s: Wrap, ctx: CtxId, fd: int, add: bool)
    ensures FdChange(s, ctx, fd, add, Accepted, []) == Lifecycle.OnFdChanged(s, ctx, fd, add)
  {
    assert s.(link := s.link) == s;
  }

  lemma AcceptedEventsChange(s: Wrap, ctx: CtxId, mask: int)
    ensures EventsChange(s, ctx, mask, Accepted, []) == Lifecycle.OnEventsChanged(s, ctx, mask)
  {
  }

  /** What erasing the element std::find stopped at does to the list as a multiset. */
  lemma EraseFirst(list: seq<OpId>, id: OpId, k: nat)
    requires k <= |list| && id !in list[..k] && (k < |list| ==> list[k] == id)
    ensures k < |list| ==> multiset(list[..k] + list[k + 1..]) == multiset(list) - multiset{id}
    ensures k == |list| ==> multiset(list) - multiset{id} == multiset(list)
  {
    if k < |list| {
      assert list == list[..k] + [list[k]] + list[k + 1..];
    } else {
      assert list[..k] == list;
      assert id !in multiset(list);
    }
  }
}
