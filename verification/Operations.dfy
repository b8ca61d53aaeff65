/**
 The pending operations of one connection: their memory, their promises and the two
 collections that own them (`pending_` and `deferred_cleanup_operations_`).

 A C++ operation is a heap object that `delete` destroys, so the heap is explicit here:
 `operations` maps the address of every allocated operation to its fields, and deleting
 removes the address.  The transitions are total; using an address that is not allocated,
 settling a promise twice and deleting twice are recorded in `faults`, and the invariants
 show that no run ever records one.
 */
module Operations {
  import opened Texts

  type OpId = nat

  datatype Kind =
    | ConnectOp | DisconnectOp | StatOp | OpenOp | ReadOp | WriteOp | FtruncateOp | CloseOp
    | MkdirOp | RmdirOp | UnlinkOp | RenameOp | OpendirOp | ReaddirOp | ClosedirOp

  /** Error codes; `Classified` is whatever the code tables make of a library status. */
  datatype Code = InvalidState | ConnectionLost | NoContext | Classified(status: int)

  datatype Value = Undefined | Null | Connection | Number(n: int) | Named(path: Text, name: Text)

  datatype Outcome = Resolved(value: Value) | Rejected(code: Code)

  /** A promise outlives its operation; `outcomes` lists every settlement it ever received. */
  datatype Promise = Promise(kind: Kind, outcomes: seq<Outcome>)

  datatype Operation = Operation(kind: Kind, settled: bool, startedAt: nat, path: Text)

  datatype Fault = UseAfterFree | DoubleFree | SettledTwice | UnlistedRejection

  datatype Ledger = Ledger(
    operations: map<OpId, Operation>,  // allocated operations
    promises: map<OpId, Promise>,
    nextId: OpId,
    created: set<OpId>,                // operations ever allocated
    deleted: multiset<OpId>,           // deletes performed
    pending: set<OpId>,                // pending_
    deferred: multiset<OpId>,          // deferred_cleanup_operations_
    outstanding: set<OpId>,            // callbacks libsmb2 may still fire
    refs: int,                         // GC reference count of the wrapper
    faults: set<Fault>)

  const EMPTY := Ledger(map[], map[], 0, {}, multiset{}, {}, multiset{}, {}, 0, {})

  predicate Unsettled(m: Ledger, id: OpId) {
    id in m.operations && !m.operations[id].settled
  }

  function Outcomes(m: Ledger, id: OpId): seq<Outcome> {
    if id in m.promises then m.promises[id].outcomes else []
  }

  // ---- Transitions ------------------------------------------------------------------------

  /** A promise that is settled at birth and has no operation behind it. */
  function Answer(m: Ledger, kind: Kind, outcome: Outcome): Ledger {
    m.(promises := m.promises[m.nextId := Promise(kind, [outcome])], nextId := m.nextId + 1)
  }

  /** `new PendingOperation`: allocates the operation and its promise. */
  function Create(m: Ledger, kind: Kind, startedAt: nat, path: Text): Ledger {
    m.(operations := m.operations[m.nextId := Operation(kind, false, startedAt, path)],
       promises := m.promises[m.nextId := Promise(kind, [])],
       created := m.created + {m.nextId},
       nextId := m.nextId + 1)
  }

  /** Settles the promise of an operation and sets its `settled` flag. */
  function Settle(m: Ledger, id: OpId, outcome: Outcome): Ledger {
    if id !in m.operations then m.(faults := m.faults + {UseAfterFree})
    else
      m.(operations := m.operations[id := m.operations[id].(settled := true)],
         promises := m.promises[id := Promise(m.operations[id].kind, Outcomes(m, id) + [outcome])],
         faults := m.faults + if Outcomes(m, id) == [] then {} else {SettledTwice})
  }

  /** What RejectPending would do wrong to an operation.  The diagnostics attached to the
      error list the pending operations with the rejected one first, so rejecting an
      unsettled operation that is not pending is a fault too. */
  function RejectFaults(m: Ledger, id: OpId): set<Fault> {
    if id !in m.operations then {UseAfterFree}
    else if m.operations[id].settled then {}
    else
      (if id in m.pending then {} else {UnlistedRejection})
      + (if Outcomes(m, id) == [] then {} else {SettledTwice})
  }

  /** RejectPending: an operation already settled is left alone. */
  function Reject(m: Ledger, id: OpId, code: Code): Ledger {
    if Unsettled(m, id)
    then Settle(m, id, Rejected(code)).(faults := m.faults + RejectFaults(m, id))
    else m.(faults := m.faults + RejectFaults(m, id))
  }

  function Hit(m: Ledger, ids: set<OpId>): set<OpId> {
    set id | id in ids && Unsettled(m, id)
  }

  function RejectAllFaults(m: Ledger, ids: set<OpId>): set<Fault> {
    set id, f | id in ids && f in RejectFaults(m, id) :: f
  }

  /** Rejects every operation of a set; the order of enumeration does not matter. */
  function RejectEach(m: Ledger, ids: set<OpId>, code: Code): Ledger {
    var hit := Hit(m, ids);
    m.(operations := map id | id in m.operations ::
         if id in hit then m.operations[id].(settled := true) else m.operations[id],
       promises := map id | id in m.promises.Keys + hit ::
         if id in hit
         then Promise(m.operations[id].kind, Outcomes(m, id) + [Rejected(code)])
         else m.promises[id],
       faults := m.faults + RejectAllFaults(m, ids))
  }

  /** RegisterPending's bookkeeping: list the operation and take a reference. */
  function Enlist(m: Ledger, id: OpId): Ledger {
    m.(pending := m.pending + {id}, refs := m.refs + 1)
  }

  /** A successful submission: libsmb2 now owes the operation a callback. */
  function Submitted(m: Ledger, id: OpId): Ledger {
    m.(outstanding := m.outstanding + {id})
  }

  function Fired(m: Ledger, id: OpId): Ledger {
    m.(outstanding := m.outstanding - {id})
  }

  /** Takes an operation off both collections. */
  function Unlist(m: Ledger, id: OpId): Ledger {
    m.(pending := m.pending - {id},
       refs := if id in m.pending then m.refs - 1 else m.refs,
       deferred := m.deferred - multiset{id})
  }

  function Delete(m: Ledger, id: OpId): Ledger {
    m.(operations := m.operations - {id},
       deleted := m.deleted + multiset{id},
       faults := m.faults + if id in m.operations then {} else {DoubleFree})
  }

  /** FinishPending: takes the operation off the collections and deletes it. */
  function Retire(m: Ledger, id: OpId): Ledger {
    Delete(Unlist(m, id), id)
  }

  /** References taken (or, if negative, dropped) on behalf of a deferred cleanup. */
  function AddRefs(m: Ledger, delta: int): Ledger {
    m.(refs := m.refs + delta)
  }

  /** Moves operations from the pending set to the deferred list. */
  function Shift(m: Ledger, ids: set<OpId>): Ledger {
    m.(pending := m.pending - ids, refs := m.refs - |ids|, deferred := m.deferred + multiset(ids))
  }

  /** QueuePendingForCleanup: moves operations to the deferred list, rejecting those that were
      still unsettled. */
  function Defer(m: Ledger, ids: set<OpId>): Ledger {
    Shift(RejectEach(m, ids, ConnectionLost), ids)
  }

  /** Every one of these is allocated, and none occurs twice. */
  predicate EachOnce(m: Ledger, ids: multiset<OpId>) {
    forall id :: id in ids ==> ids[id] == 1 && id in m.operations
  }

  /** DrainDeferredCleanupOperations: deletes every deferred operation. */
  function Drain(m: Ledger): Ledger {
    m.(operations := m.operations - (set id | id in m.deferred),
       deleted := m.deleted + m.deferred,
       deferred := multiset{},
       faults := m.faults + if EachOnce(m, m.deferred) then {} else {DoubleFree})
  }

  /** A new operation, listed as pending. */
  function Enrol(m: Ledger, kind: Kind, startedAt: nat, path: Text): Ledger {
    Enlist(Create(m, kind, startedAt, path), m.nextId)
  }

  /** An operation that is settled and deleted before it is ever listed. */
  function Stillborn(m: Ledger, kind: Kind, startedAt: nat, path: Text, outcome: Outcome): Ledger {
    Delete(Settle(Create(m, kind, startedAt, path), m.nextId, outcome), m.nextId)
  }

  /** smb2_destroy_context frees what libsmb2 still owed: nothing can fire any more. */
  function Silence(m: Ledger): Ledger {
    m.(outstanding := {})
  }

  // ---- The invariant ----------------------------------------------------------------------

  /** Collections and memory agree.  `loose` holds operations that are allocated but on
      neither collection yet (or any more); `held` says a cleanup reference is held. */
  ghost predicate Owned(m: Ledger, loose: set<OpId>, held: bool) {
    && m.faults == {}
    && (forall id :: id in m.operations <==> id in m.pending || id in m.deferred || id in loose)
    && (forall id :: id in m.deferred ==> m.deferred[id] == 1 && id !in m.pending)
    && (forall id :: id in loose ==> id !in m.pending && id !in m.deferred)
    && m.outstanding <= m.operations.Keys
    && m.refs == |m.pending| + (if held then 1 else 0)
  }

  /** Every promise is settled at most once, and exactly once when its operation is settled
      or gone; an unsettled operation is never on the deferred list. */
  ghost predicate Promised(m: Ledger) {
    && (forall id :: id in m.operations ==>
          && id in m.promises
          && m.promises[id].kind == m.operations[id].kind
          && |m.promises[id].outcomes| == if m.operations[id].settled then 1 else 0)
    && (forall id :: id in m.promises ==>
          id < m.nextId && (id !in m.operations ==> |m.promises[id].outcomes| == 1))
    && (forall id :: id in m.deferred ==> id in m.operations && m.operations[id].settled)
  }

  /** Every operation ever allocated is either still allocated or was deleted exactly once. */
  ghost predicate Accounted(m: Ledger) {
    && (forall id :: id in m.operations ==> id in m.created)
    && (forall id :: id in m.created ==> id < m.nextId)
    && (forall id :: m.deleted[id] == if id in m.created && id !in m.operations then 1 else 0)
  }

  ghost predicate LedgerInv(m: Ledger, loose: set<OpId>, held: bool) {
    Owned(m, loose, held) && Promised(m) && Accounted(m)
  }

  ghost predicate AllSettled(m: Ledger) {
    forall id {:trigger Unsettled(m, id)} {:trigger id in m.operations} ::
      id in m.operations ==> m.operations[id].settled
  }

  /** What callers need from the invariant. */
  lemma Membership(m: Ledger, loose: set<OpId>, held: bool)
    requires LedgerInv(m, loose, held)
    ensures m.faults == {}
    ensures m.outstanding <= m.operations.Keys
    ensures forall id :: id in m.operations <==> id in m.pending || id in m.deferred || id in loose
    ensures forall id :: id in m.deferred ==>
      id in m.operations && m.operations[id].settled && id !in m.pending && m.deferred[id] == 1
    ensures m.nextId !in m.operations
    ensures forall id :: id in m.operations ==> id in m.promises && m.promises[id].kind == m.operations[id].kind
    ensures forall id :: Unsettled(m, id) ==> m.promises[id].outcomes == []
    ensures forall id :: id in m.promises ==> id < m.nextId
  {
  }

  // ---- Preservation -----------------------------------------------------------------------

  lemma CreateKeeps(m: Ledger, kind: Kind, startedAt: nat, path: Text, held: bool)
    requires LedgerInv(m, {}, held)
    ensures LedgerInv(Create(m, kind, startedAt, path), {m.nextId}, held)
  {
    var id, r := m.nextId, Create(m, kind, startedAt, path);
    assert id !in m.operations && id !in m.created && id !in m.promises;
    assert Owned(r, {id}, held);
    assert Promised(r);
    assert Accounted(r);
  }

  lemma AnswerKeeps(m: Ledger, kind: Kind, outcome: Outcome, held: bool)
    requires LedgerInv(m, {}, held)
    ensures LedgerInv(Answer(m, kind, outcome), {}, held)
  {
  }

  lemma SettleKeeps(m: Ledger, id: OpId, outcome: Outcome, loose: set<OpId>, held: bool)
    requires LedgerInv(m, loose, held)
    requires Unsettled(m, id)
    ensures LedgerInv(Settle(m, id, outcome), loose, held)
  {
  }

  lemma RejectKeeps(m: Ledger, id: OpId, code: Code, loose: set<OpId>, held: bool)
    requires LedgerInv(m, loose, held)
    requires id in m.operations && id !in loose
    ensures LedgerInv(Reject(m, id, code), loose, held)
    ensures !Unsettled(Reject(m, id, code), id)
  {
    RejectIsSettle(m, id, code, loose, held);
    hide LedgerInv, Reject;
    if Unsettled(m, id) {
      SettleKeeps(m, id, Rejected(code), loose, held);
    }
  }

  lemma RejectEachKeeps(m: Ledger, ids: set<OpId>, code: Code, loose: set<OpId>, held: bool)
    requires LedgerInv(m, loose, held)
    requires ids <= m.pending
    ensures LedgerInv(RejectEach(m, ids, code), loose, held)
    ensures forall id :: id in ids ==> !Unsettled(RejectEach(m, ids, code), id)
  {
    NoRejectFaults(m, ids, code, loose, held);
    hide RejectAllFaults, RejectFaults;
    var r := RejectEach(m, ids, code);
    assert r.faults == {};
    RejectEachPromised(m, ids, code, loose, held);
    hide Promised;
  }

  /** Listed operations can be rejected. */
  lemma NoRejectFaults(m: Ledger, ids: set<OpId>, code: Code, loose: set<OpId>, held: bool)
    requires LedgerInv(m, loose, held)
    requires ids <= m.pending
    ensures RejectAllFaults(m, ids) == {}
  {
    assert forall id :: id in ids ==> RejectFaults(m, id) == {};
  }

  lemma RejectEachPromised(m: Ledger, ids: set<OpId>, code: Code, loose: set<OpId>, held: bool)
    requires LedgerInv(m, loose, held)
    requires ids <= m.pending
    ensures Promised(RejectEach(m, ids, code))
  {
    hide RejectAllFaults, RejectFaults;
  }

  lemma EnlistKeeps(m: Ledger, id: OpId, held: bool)
    requires LedgerInv(m, {id}, held)
    ensures LedgerInv(Enlist(m, id), {}, held)
  {
  }

  lemma UnlistKeeps(m: Ledger, id: OpId, held: bool)
    requires LedgerInv(m, {}, held)
    requires id in m.operations
    ensures LedgerInv(Unlist(m, id), {id}, held)
  {
    if id in m.pending {
      assert |m.pending - {id}| == |m.pending| - 1;
    } else {
      assert m.pending - {id} == m.pending;
    }
  }

  lemma DeleteKeeps(m: Ledger, id: OpId, held: bool)
    requires LedgerInv(m, {id}, held)
    requires id !in m.outstanding && m.operations[id].settled
    ensures LedgerInv(Delete(m, id), {}, held)
  {
  }

  lemma ShiftKeeps(m: Ledger, ids: set<OpId>, loose: set<OpId>, held: bool)
    requires LedgerInv(m, loose, held)
    requires ids <= m.pending && forall id :: id in ids ==> !Unsettled(m, id)
    ensures LedgerInv(Shift(m, ids), loose, held)
  {
    assert |m.pending - ids| == |m.pending| - |ids|;
  }

  lemma DrainKeeps(m: Ledger, held: bool)
    requires LedgerInv(m, {}, held)
    requires m.outstanding == {}
    ensures LedgerInv(Drain(m), {}, held)
    ensures Drain(m).operations.Keys == m.pending
  {
  }

  lemma AddRefsKeeps(m: Ledger, held: bool, hold: bool)
    requires LedgerInv(m, {}, held)
    ensures LedgerInv(AddRefs(m, (if hold then 1 else 0) - (if held then 1 else 0)), {}, hold)
  {
  }

  // ---- How promises evolve ----------------------------------------------------------------

  predicate Succeeded(p: Promise) {
    exists o :: o in p.outcomes && o.Resolved?
  }

  /** The same operation, settled or not: what it is about does not change. */
  predicate SameDeed(a: Operation, b: Operation) {
    b == a.(settled := b.settled)
  }

  /** Promises are never lost, and a settled one never changes; operations are never replaced. */
  ghost predicate Remembers(m: Ledger, t: Ledger) {
    && m.nextId <= t.nextId
    && m.created <= t.created
    && (forall id :: id in t.operations && id < m.nextId ==>
          id in m.operations && SameDeed(m.operations[id], t.operations[id]))
    && (forall id :: id in m.promises ==>
          && id in t.promises
          && t.promises[id].kind == m.promises[id].kind
          && (m.promises[id].outcomes != [] ==> t.promises[id].outcomes == m.promises[id].outcomes))
  }

  /** No promise but a disconnect's has been resolved from `m` to `t`. */
  ghost predicate NoNewSuccess(m: Ledger, t: Ledger) {
    forall id :: id in t.promises && !t.promises[id].kind.DisconnectOp? && Succeeded(t.promises[id]) ==>
      id in m.promises && Succeeded(m.promises[id])
  }

  lemma RemembersTrans(a: Ledger, b: Ledger, c: Ledger)
    requires Remembers(a, b) && Remembers(b, c)
    ensures Remembers(a, c)
  {
  }

  lemma NoNewSuccessTrans(a: Ledger, b: Ledger, c: Ledger)
    requires Remembers(a, b) && Remembers(b, c)
    requires NoNewSuccess(a, b) && NoNewSuccess(b, c)
    ensures NoNewSuccess(a, c)
  {
  }

  /** From `m` to `t` some open promises have been rejected with `code`, and nothing else. */
  ghost predicate OnlyRejects(m: Ledger, t: Ledger, code: Code) {
    && t.nextId == m.nextId
    && t.created == m.created
    && (forall id :: id in t.operations ==> id in m.operations && SameDeed(m.operations[id], t.operations[id]))
    && t.promises.Keys == m.promises.Keys
    && (forall id :: id in m.promises ==>
          && t.promises[id].kind == m.promises[id].kind
          && (t.promises[id].outcomes == m.promises[id].outcomes
              || (m.promises[id].outcomes == [] && t.promises[id].outcomes == [Rejected(code)])))
  }

  lemma OnlyRejectsSame(m: Ledger, a: Ledger, b: Ledger, code: Code)
    requires OnlyRejects(m, a, code)
    requires b.promises == a.promises && b.nextId == a.nextId && b.created == a.created
    requires forall id :: id in b.operations ==> id in a.operations && b.operations[id] == a.operations[id]
    ensures OnlyRejects(m, b, code)
  {
  }

  lemma OnlyRejectsEvolves(m: Ledger, t: Ledger, code: Code)
    requires OnlyRejects(m, t, code)
    ensures Remembers(m, t) && NoNewSuccess(m, t)
  {
  }

  /** What rejecting a set of listed operations does. */
  lemma RejectEachFacts(m: Ledger, ids: set<OpId>, code: Code, loose: set<OpId>, held: bool)
    requires LedgerInv(m, loose, held)
    requires ids <= m.pending
    ensures var t := RejectEach(m, ids, code);
      && LedgerInv(t, loose, held)
      && OnlyRejects(m, t, code)
      && t == m.(operations := t.operations, promises := t.promises)
      && t.operations.Keys == m.operations.Keys
      && (forall id :: id in m.operations ==>
            t.operations[id] == if id in ids then m.operations[id].(settled := true) else m.operations[id])
  {
    RejectEachKeeps(m, ids, code, loose, held);
    assert forall id :: id in ids ==> RejectFaults(m, id) == {};
    assert m.faults + RejectAllFaults(m, ids) == m.faults;
  }

  /** RejectAllPending settles every operation that is listed. */
  lemma RejectAllFacts(m: Ledger, code: Code, loose: set<OpId>, held: bool)
    requires LedgerInv(m, loose, held)
    ensures var t := RejectEach(m, m.pending, code);
      && LedgerInv(t, loose, held)
      && OnlyRejects(m, t, code)
      && t == m.(operations := t.operations, promises := t.promises)
      && t.operations.Keys == m.operations.Keys
      && (forall id :: id in m.operations ==> t.operations[id].kind == m.operations[id].kind)
      && (forall id :: id in t.operations && id !in loose ==> t.operations[id].settled)
      && (forall id :: id in loose ==> t.operations[id] == m.operations[id])
  {
    RejectEachFacts(m, m.pending, code, loose, held);
    Membership(m, loose, held);
    hide RejectEach;
  }

  // ---- What the transitions leave alone ---------------------------------------------------

  /** `t` is `m` after some callbacks have done nothing but finish their operations: no promise
      is touched, and exactly the operations whose callbacks fired are gone. */
  ghost predicate Shrinks(m: Ledger, t: Ledger) {
    && t.promises == m.promises
    && t.created == m.created
    && t.nextId == m.nextId
    && t.pending <= m.pending
    && t.outstanding <= m.outstanding
    && (forall id :: id in t.operations ==> id in m.operations && t.operations[id] == m.operations[id])
    && (forall id :: id in m.operations ==>
          (id in t.operations <==> id in t.outstanding || id !in m.outstanding))
  }

  /** RejectPending returns at once when the operation is settled. */
  lemma RejectSettled(m: Ledger, id: OpId, code: Code)
    requires id in m.operations && m.operations[id].settled
    ensures Reject(m, id, code) == m
  {
    assert m.faults + RejectFaults(m, id) == m.faults;
  }

  lemma ShrinksRefl(m: Ledger)
    requires m.outstanding <= m.operations.Keys
    ensures Shrinks(m, m)
  {
  }

  lemma ShrinksTrans(a: Ledger, b: Ledger, c: Ledger)
    requires Shrinks(a, b) && Shrinks(b, c)
    requires a.outstanding <= a.operations.Keys
    ensures Shrinks(a, c)
  {
  }

  lemma FiredKeeps(m: Ledger, id: OpId, held: bool)
    requires LedgerInv(m, {}, held)
    ensures LedgerInv(Fired(m, id), {}, held)
  {
  }

  lemma SilenceKeeps(m: Ledger, held: bool)
    requires LedgerInv(m, {}, held)
    ensures LedgerInv(Silence(m), {}, held)
  {
  }

  lemma RetireKeeps(m: Ledger, id: OpId, held: bool)
    requires LedgerInv(m, {}, held)
    requires id in m.operations && id !in m.outstanding && m.operations[id].settled
    ensures LedgerInv(Retire(m, id), {}, held)
  {
    UnlistKeeps(m, id, held);
    DeleteKeeps(Unlist(m, id), id, held);
  }

  lemma RetireFacts(m: Ledger, id: OpId)
    ensures var t := Retire(m, id);
      && t.operations == m.operations - {id} && t.pending == m.pending - {id}
      && t.outstanding == m.outstanding && t.promises == m.promises && t.nextId == m.nextId
      && t.created == m.created
      && (m.deferred == multiset{} ==> t.deferred == multiset{})
  {
  }

  lemma RetireShrinks(m: Ledger, id: OpId, held: bool)
    requires LedgerInv(m, {}, held)
    requires id in m.outstanding
    ensures Shrinks(m, Retire(Fired(m, id), id))
  {
  }

  /** Deferring everything but `keep`. */
  lemma DeferFacts(m: Ledger, keep: set<OpId>, held: bool)
    requires LedgerInv(m, {}, held)
    ensures var t := Defer(m, m.pending - keep);
      && LedgerInv(t, {}, held)
      && OnlyRejects(m, t, ConnectionLost)
      && t.operations.Keys == m.operations.Keys && t.pending == m.pending * keep
      && t.outstanding == m.outstanding && t.nextId == m.nextId && t.created == m.created
      && (forall id :: id in m.operations ==> t.operations[id].kind == m.operations[id].kind)
      && (forall id :: Unsettled(t, id) ==> Unsettled(m, id) && id !in m.pending - keep)
      && (AllSettled(m) ==> t.operations == m.operations && t.promises == m.promises)
  {
    hide LedgerInv, RejectEach, OnlyRejects, Shift;
    var ids := m.pending - keep;
    var r := RejectEach(m, ids, ConnectionLost);
    RejectEachFacts(m, ids, ConnectionLost, {}, held);
    assert forall id :: id in ids ==> !Unsettled(r, id);
    ShiftKeeps(r, ids, {}, held);
    ShiftFacts(r, ids);
    OnlyRejectsSame(m, r, Defer(m, ids), ConnectionLost);
    if AllSettled(m) {
      SettledUnchanged(m, r, ids, held);
    }
    assert m.pending - ids == m.pending * keep;
  }

  lemma ShiftFacts(m: Ledger, ids: set<OpId>)
    ensures var t := Shift(m, ids);
      && t.pending == m.pending - ids && t.operations == m.operations && t.promises == m.promises
      && t.outstanding == m.outstanding && t.nextId == m.nextId && t.created == m.created
  {
  }

  lemma SettledUnchanged(m: Ledger, t: Ledger, ids: set<OpId>, held: bool)
    requires LedgerInv(m, {}, held) && AllSettled(m)
    requires ids <= m.pending && t == RejectEach(m, ids, ConnectionLost)
    ensures t.operations == m.operations && t.promises == m.promises
  {
    assert Hit(m, ids) == {};
  }

  lemma DeferRetireShrinks(m: Ledger, id: OpId, held: bool)
    requires LedgerInv(m, {}, held) && AllSettled(m)
    requires id in m.outstanding
    ensures var fired := Fired(m, id);
      Shrinks(m, Retire(Defer(fired, fired.pending - {id}), id))
  {
    hide LedgerInv, Defer, Retire, OnlyRejects;
    FiredKeeps(m, id, held);
    DeferFacts(Fired(m, id), {id}, held);
    RetireFacts(Defer(Fired(m, id), m.pending - {id}), id);
    Membership(m, {}, held);
  }

  lemma DrainFacts(m: Ledger, held: bool)
    requires LedgerInv(m, {}, held)
    requires m.outstanding == {}
    ensures var t := Drain(m);
      && LedgerInv(t, {}, held)
      && t.operations.Keys == m.pending && t.pending == m.pending && t.deferred == multiset{}
      && t.outstanding == {} && t.promises == m.promises && t.nextId == m.nextId
      && t.created == m.created
      && (AllSettled(m) ==> AllSettled(t))
  {
    DrainKeeps(m, held);
  }

  lemma AddRefsFacts(m: Ledger, delta: int)
    ensures AddRefs(m, delta) == m.(refs := m.refs + delta)
  {
  }

  /** Whatever libsmb2 fires, an operation whose callback is not outstanding survives, unless
      it is in `gone`. */
  ghost predicate Spares(m: Ledger, t: Ledger, gone: set<OpId>) {
    && t.outstanding <= m.outstanding
    && (forall id :: id in m.operations && id !in m.outstanding && id !in gone ==>
          && id in t.operations
          && t.operations[id].kind == m.operations[id].kind
          && (m.operations[id].settled ==> t.operations[id].settled))
  }

  lemma SparesMore(m: Ledger, t: Ledger, gone: set<OpId>)
    requires Spares(m, t, {})
    ensures Spares(m, t, gone)
  {
  }

  lemma SparesTrans(a: Ledger, b: Ledger, c: Ledger, gone: set<OpId>)
    requires Spares(a, b, gone) && Spares(b, c, gone)
    ensures Spares(a, c, gone)
  {
  }

  /** Settling one open promise. */
  lemma SettleFacts(m: Ledger, id: OpId, outcome: Outcome, loose: set<OpId>, held: bool)
    requires LedgerInv(m, loose, held)
    requires Unsettled(m, id)
    ensures var t := Settle(m, id, outcome);
      && LedgerInv(t, loose, held)
      && t == m.(operations := t.operations, promises := t.promises)
      && t.operations == m.operations[id := m.operations[id].(settled := true)]
      && Remembers(m, t)
      && (outcome.Rejected? || m.operations[id].kind.DisconnectOp? ==> NoNewSuccess(m, t))
  {
    SettleKeeps(m, id, outcome, loose, held);
    assert m.faults + {} == m.faults;
  }

  /** RejectPending on a listed operation is settling it, or nothing. */
  lemma RejectIsSettle(m: Ledger, id: OpId, code: Code, loose: set<OpId>, held: bool)
    requires LedgerInv(m, loose, held)
    requires id in m.operations && id !in loose
    ensures Reject(m, id, code) == if Unsettled(m, id) then Settle(m, id, Rejected(code)) else m
  {
    Membership(m, loose, held);
    assert RejectFaults(m, id) == {};
    assert m.faults + {} == m.faults;
  }

  // ---- New operations ---------------------------------------------------------------------

  lemma EnrolFacts(m: Ledger, kind: Kind, startedAt: nat, path: Text, held: bool)
    requires LedgerInv(m, {}, held)
    ensures var t := Enrol(m, kind, startedAt, path);
      && LedgerInv(t, {}, held)
      && t.operations == m.operations[m.nextId := Operation(kind, false, startedAt, path)]
      && t.pending == m.pending + {m.nextId} && t.deferred == m.deferred
      && t.outstanding == m.outstanding && t.nextId == m.nextId + 1
      && m.nextId !in m.operations && m.nextId !in m.outstanding
      && Remembers(m, t) && NoNewSuccess(m, t)
  {
    CreateKeeps(m, kind, startedAt, path, held);
    EnlistKeeps(Create(m, kind, startedAt, path), m.nextId, held);
  }

  lemma StillbornKeeps(m: Ledger, kind: Kind, startedAt: nat, path: Text, outcome: Outcome, held: bool)
    requires LedgerInv(m, {}, held)
    ensures LedgerInv(Stillborn(m, kind, startedAt, path, outcome), {}, held)
  {
    var id := m.nextId;
    var m1 := Create(m, kind, startedAt, path);
    CreateKeeps(m, kind, startedAt, path, held);
    hide LedgerInv;
    Membership(m, {}, held);
    Membership(m1, {id}, held);
    SettleKeeps(m1, id, outcome, {id}, held);
    DeleteKeeps(Settle(m1, id, outcome), id, held);
  }

  lemma StillbornFacts(m: Ledger, kind: Kind, startedAt: nat, path: Text, outcome: Outcome, held: bool)
    requires LedgerInv(m, {}, held)
    ensures var t := Stillborn(m, kind, startedAt, path, outcome);
      && LedgerInv(t, {}, held)
      && t.operations == m.operations && t.pending == m.pending && t.deferred == m.deferred
      && t.outstanding == m.outstanding && t.nextId == m.nextId + 1
      && t.promises == m.promises[m.nextId := Promise(kind, [outcome])]
      && Remembers(m, t) && (outcome.Rejected? || kind.DisconnectOp? ==> NoNewSuccess(m, t))
  {
    hide LedgerInv;
    StillbornKeeps(m, kind, startedAt, path, outcome, held);
    Membership(m, {}, held);
    var t := Stillborn(m, kind, startedAt, path, outcome);
    StillbornFields(m, kind, startedAt, path, outcome);
    hide Stillborn, Remembers, NoNewSuccess;
    OneMorePromise(m, t, kind, outcome);
  }

  lemma OneMorePromise(m: Ledger, t: Ledger, kind: Kind, outcome: Outcome)
    requires t.operations == m.operations && t.nextId == m.nextId + 1 && m.created <= t.created
    requires t.promises == m.promises[m.nextId := Promise(kind, [outcome])]
    requires forall id :: id in m.promises ==> id < m.nextId
    ensures Remembers(m, t) && (outcome.Rejected? || kind.DisconnectOp? ==> NoNewSuccess(m, t))
  {
  }

  lemma StillbornFields(m: Ledger, kind: Kind, startedAt: nat, path: Text, outcome: Outcome)
    requires m.nextId !in m.operations
    ensures var t := Stillborn(m, kind, startedAt, path, outcome);
      && t.operations == m.operations && t.pending == m.pending && t.deferred == m.deferred
      && t.outstanding == m.outstanding && t.nextId == m.nextId + 1
      && t.created == m.created + {m.nextId}
      && t.promises == m.promises[m.nextId := Promise(kind, [outcome])]
  {
    assert [] + [outcome] == [outcome];
  }

  lemma AnswerFacts(m: Ledger, kind: Kind, outcome: Outcome, held: bool)
    requires LedgerInv(m, {}, held)
    ensures var t := Answer(m, kind, outcome);
      && LedgerInv(t, {}, held)
      && t == m.(promises := t.promises, nextId := m.nextId + 1)
      && t.promises == m.promises[m.nextId := Promise(kind, [outcome])]
      && Remembers(m, t) && (outcome.Rejected? || kind.DisconnectOp? ==> NoNewSuccess(m, t))
  {
    AnswerKeeps(m, kind, outcome, held);
    Membership(m, {}, held);
  }

  // ---- Loops over the collections ---------------------------------------------------------

  lemma RejectFaultsStep(m: Ledger, done: set<OpId>, id: OpId, code: Code)
    requires id !in done
    ensures RejectFaults(RejectEach(m, done, code), id) == RejectFaults(m, id)
    ensures RejectAllFaults(m, done + {id}) == RejectAllFaults(m, done) + RejectFaults(m, id)
  {
  }

  lemma RejectOperationsStep(m: Ledger, done: set<OpId>, id: OpId, code: Code)
    requires id !in done
    ensures Reject(RejectEach(m, done, code), id, code).operations == RejectEach(m, done + {id}, code).operations
  {
  }

  lemma RejectPromisesStep(m: Ledger, done: set<OpId>, id: OpId, code: Code)
    requires id !in done
    ensures Reject(RejectEach(m, done, code), id, code).promises == RejectEach(m, done + {id}, code).promises
  {
    hide RejectAllFaults, RejectFaults;
    assert Unsettled(RejectEach(m, done, code), id) == Unsettled(m, id);
    assert Outcomes(RejectEach(m, done, code), id) == Outcomes(m, id);
  }

  /** RejectEach is what a loop of RejectPending calls computes, in any order. */
  lemma RejectEachStep(m: Ledger, done: set<OpId>, id: OpId, code: Code)
    requires id !in done
    ensures Reject(RejectEach(m, done, code), id, code) == RejectEach(m, done + {id}, code)
  {
    RejectFaultsStep(m, done, id, code);
    RejectOperationsStep(m, done, id, code);
    RejectPromisesStep(m, done, id, code);
  }

  lemma RejectNone(m: Ledger, code: Code)
    ensures RejectEach(m, {}, code) == m
  {
    var r := RejectEach(m, {}, code);
    assert r.operations == m.operations;
    assert r.promises == m.promises;
    assert r.faults == m.faults;
  }

  /** Moving one pending operation to the deferred list, as the loop of QueuePendingForCleanup
      does it. */
  function DeferOne(m: Ledger, id: OpId): Ledger {
    var r := Reject(m, id, ConnectionLost);
    r.(pending := r.pending - {id}, refs := r.refs - 1, deferred := r.deferred + multiset{id})
  }

  lemma RejectAfterShift(m: Ledger, ids: set<OpId>, id: OpId, code: Code)
    requires id !in ids
    ensures Reject(Shift(m, ids), id, code) == Shift(Reject(m, id, code), ids)
  {
    assert RejectFaults(Shift(m, ids), id) == RejectFaults(m, id);
  }

  /** Defer is what that loop computes, in any order. */
  lemma DeferStep(m: Ledger, done: set<OpId>, id: OpId)
    requires id !in done
    ensures DeferOne(Defer(m, done), id) == Defer(m, done + {id})
  {
    hide RejectEach, Reject;
    var r := RejectEach(m, done, ConnectionLost);
    RejectAfterShift(r, done, id, ConnectionLost);
    RejectEachStep(m, done, id, ConnectionLost);
    ShiftStep(RejectEach(m, done + {id}, ConnectionLost), done, id);
  }

  lemma ShiftStep(m: Ledger, done: set<OpId>, id: OpId)
    requires id !in done
    ensures var t := Shift(m, done);
      t.(pending := t.pending - {id}, refs := t.refs - 1, deferred := t.deferred + multiset{id})
      == Shift(m, done + {id})
  {
    assert m.pending - done - {id} == m.pending - (done + {id});
    assert m.deferred + multiset(done) + multiset{id} == m.deferred + multiset(done + {id});
  }

  lemma DeferNone(m: Ledger)
    ensures Defer(m, {}) == m
  {
    RejectNone(m, ConnectionLost);
    assert m.pending - {} == m.pending;
    assert m.deferred + multiset{} == m.deferred;
  }

  /** Deleting the operations of a list one after another. */
  function DeleteEach(m: Ledger, ids: seq<OpId>): Ledger {
    if ids == [] then m else Delete(DeleteEach(m, ids[..|ids| - 1]), ids[|ids| - 1])
  }

  lemma {:induction false} DeleteEachEffect(m: Ledger, ids: seq<OpId>)
    ensures var t := DeleteEach(m, ids);
      && t == m.(operations := t.operations, deleted := t.deleted, faults := t.faults)
      && t.operations == m.operations - (set id | id in ids)
      && t.deleted == m.deleted + multiset(ids)
  {
    if ids != [] {
      var n := |ids| - 1;
      DeleteEachEffect(m, ids[..n]);
      assert ids == ids[..n] + [ids[n]];
    }
  }

  lemma {:induction false} DeleteEachFaults(m: Ledger, ids: seq<OpId>)
    ensures DeleteEach(m, ids).faults == m.faults
      + if EachOnce(m, multiset(ids)) then {} else {DoubleFree}
  {
    if ids == [] {
      assert m.faults + {} == m.faults;
    } else {
      var n := |ids| - 1;
      DeleteEachFaults(m, ids[..n]);
      DeleteEachEffect(m, ids[..n]);
      assert ids == ids[..n] + [ids[n]];
      DistinctStep(m, ids[..n], ids[n]);
      hide EachOnce;
    }
  }

  lemma DistinctStep(m: Ledger, ids: seq<OpId>, last: OpId)
    ensures EachOnce(m, multiset(ids + [last]))
       <==> EachOnce(m, multiset(ids)) && last in m.operations && last !in ids
  {
    var all := multiset(ids + [last]);
    assert all == multiset(ids) + multiset{last};
    assert last in all;
    if last in m.operations && last !in ids {
      assert forall id :: id in multiset(ids) ==> id in all && all[id] == multiset(ids)[id];
    } else if last in ids {
      assert all[last] > 1;
    }
  }

  /** Drain is what its loop computes. */
  lemma DrainIsDeleteEach(m: Ledger, ids: seq<OpId>)
    requires m.deferred == multiset(ids)
    ensures DeleteEach(m, ids).(deferred := multiset{}) == Drain(m)
  {
    DeleteEachEffect(m, ids);
    DeleteEachFaults(m, ids);
    assert (set id | id in m.deferred) == (set id | id in ids);
  }

  lemma CommutedFaults(m: Ledger, ids: set<OpId>, code: Code, kind: Kind, startedAt: nat, path: Text)
    requires m.nextId !in ids
    ensures RejectAllFaults(Create(m, kind, startedAt, path), ids) == RejectAllFaults(m, ids)
    ensures Hit(Create(m, kind, startedAt, path), ids) == Hit(m, ids)
  {
    assert forall id :: id in ids ==> RejectFaults(Create(m, kind, startedAt, path), id) == RejectFaults(m, id);
  }

  lemma CommutedPromises(m: Ledger, ids: set<OpId>, code: Code, kind: Kind, startedAt: nat, path: Text)
    requires m.nextId !in ids
    ensures RejectEach(Create(m, kind, startedAt, path), ids, code).promises
         == Create(RejectEach(m, ids, code), kind, startedAt, path).promises
  {
    hide RejectAllFaults, RejectFaults;
    var hit := Hit(m, ids);
    CommutedFaults(m, ids, code, kind, startedAt, path);
    assert m.nextId !in hit;
    hide Hit;
  }

  lemma CommutedOperations(m: Ledger, ids: set<OpId>, code: Code, kind: Kind, startedAt: nat, path: Text)
    requires m.nextId !in ids
    ensures RejectEach(Create(m, kind, startedAt, path), ids, code).operations
         == Create(RejectEach(m, ids, code), kind, startedAt, path).operations
  {
  }

  /** Creating an operation and rejecting others do not interfere. */
  lemma RejectCreateCommute(m: Ledger, ids: set<OpId>, code: Code, kind: Kind, startedAt: nat, path: Text)
    requires m.nextId !in ids
    ensures RejectEach(Create(m, kind, startedAt, path), ids, code)
         == Create(RejectEach(m, ids, code), kind, startedAt, path)
    ensures Create(m, kind, startedAt, path).pending == m.pending && RejectEach(m, ids, code).nextId == m.nextId
  {
    CommutedFaults(m, ids, code, kind, startedAt, path);
    CommutedPromises(m, ids, code, kind, startedAt, path);
    CommutedOperations(m, ids, code, kind, startedAt, path);
    hide RejectAllFaults, Hit;
  }
}
