/**
 The list of active operations attached to an error: SnapshotPendingOperations and the order
 in which PendingOperationsToJs puts its entries.
 */
module Diagnostics {
  import opened Options
  import opened Operations

  function Action(kind: Kind): string {
    match kind
    case ConnectOp => "connect"
    case DisconnectOp => "disconnect"
    case StatOp => "stat"
    case OpenOp => "open"
    case ReadOp => "read"
    case WriteOp => "write"
    case FtruncateOp => "ftruncate"
    case CloseOp => "close"
    case MkdirOp => "mkdir"
    case RmdirOp => "rmdir"
    case UnlinkOp => "unlink"
    case RenameOp => "rename"
    case OpendirOp => "opendir"
    case ReaddirOp => "readdir"
    case ClosedirOp => "closedir"
  }

  /** std::string's operator<. */
  predicate Less(a: string, b: string) {
    b != [] && (a == [] || a[0] < b[0] || (a[0] == b[0] && Less(a[1..], b[1..])))
  }

  /** The comparator of the sort: by start time, then by action. */
  predicate Earlier(a: Operation, b: Operation) {
    if a.startedAt != b.startedAt then a.startedAt < b.startedAt else Less(Action(a.kind), Action(b.kind))
  }

  ghost predicate Sorted(operations: map<OpId, Operation>, ids: seq<OpId>)
    requires forall id :: id in ids ==> id in operations
  {
    forall i, j :: 0 <= i < j < |ids| ==> !Earlier(operations[ids[j]], operations[ids[i]])
  }

  // ---- The comparator is a strict weak order ----------------------------------------------

  lemma {:induction false} LessIsAsymmetric(a: string, b: string)
    requires Less(a, b)
    ensures !Less(b, a)
  {
    if a != [] && a[0] == b[0] {
      LessIsAsymmetric(a[1..], b[1..]);
    }
  }

  lemma {:induction false} NotLessTransitive(a: string, b: string, c: string)
    requires !Less(b, a) && !Less(c, b)
    ensures !Less(c, a)
  {
    if a != [] && b != [] && c != [] && a[0] == b[0] == c[0] {
      NotLessTransitive(a[1..], b[1..], c[1..]);
    }
  }

  lemma NotEarlierTransitive(a: Operation, b: Operation, c: Operation)
    requires !Earlier(b, a) && !Earlier(c, b)
    ensures !Earlier(c, a)
  {
    if a.startedAt == b.startedAt == c.startedAt {
      NotLessTransitive(Action(a.kind), Action(b.kind), Action(c.kind));
    }
    hide Action, Less;
  }

  lemma EarlierIsAsymmetric(a: Operation, b: Operation)
    requires Earlier(a, b)
    ensures !Earlier(b, a)
  {
    if a.startedAt == b.startedAt {
      LessIsAsymmetric(Action(a.kind), Action(b.kind));
    }
  }

  // ---- The sort ---------------------------------------------------------------------------

  /** Puts one more operation in its place: the step of the sort. */
  function Inserted(operations: map<OpId, Operation>, id: OpId, ids: seq<OpId>): (r: seq<OpId>)
    requires id in operations && forall i :: i in ids ==> i in operations
    ensures multiset(r) == multiset(ids) + multiset{id}
    ensures forall i :: i in r ==> i in operations
  {
    if ids == [] then [id]
    else if Earlier(operations[ids[0]], operations[id]) then
      assert ids == [ids[0]] + ids[1..];
      var rest := Inserted(operations, id, ids[1..]);
      assert forall i :: i in [ids[0]] + rest ==> i == ids[0] || i in rest;
      [ids[0]] + rest
    else
      [id] + ids
  }

  lemma {:induction false} InsertedSorted(operations: map<OpId, Operation>, id: OpId, ids: seq<OpId>)
    requires id in operations && forall i :: i in ids ==> i in operations
    requires Sorted(operations, ids)
    ensures Sorted(operations, Inserted(operations, id, ids))
  {
    hide Earlier;
    if ids == [] {
    } else if Earlier(operations[ids[0]], operations[id]) {
      var rest := Inserted(operations, id, ids[1..]);
      InsertedSorted(operations, id, ids[1..]);
      EarlierIsAsymmetric(operations[ids[0]], operations[id]);
      forall j | 0 <= j < |rest| ensures !Earlier(operations[rest[j]], operations[ids[0]]) {
        assert rest[j] in multiset(rest);
        assert rest[j] == id || rest[j] in ids[1..];
      }
    } else {
      FirstIsLeast(operations, id, ids);
    }
  }

  lemma FirstIsLeast(operations: map<OpId, Operation>, id: OpId, ids: seq<OpId>)
    requires id in operations && forall i :: i in ids ==> i in operations
    requires ids != [] && Sorted(operations, ids) && !Earlier(operations[ids[0]], operations[id])
    ensures forall j :: 0 <= j < |ids| ==> !Earlier(operations[ids[j]], operations[id])
  {
    hide Earlier;
    forall j | 0 < j < |ids| ensures !Earlier(operations[ids[j]], operations[id]) {
      NotEarlierTransitive(operations[id], operations[ids[0]], operations[ids[j]]);
    }
  }

  // ---- What the order is ------------------------------------------------------------------

  /** The first `n` characters agree, and then `a` ends, or goes on with a smaller one. */
  predicate AgreesUntil(a: string, b: string, n: nat) {
    && n <= |a| && n <= |b| && a[..n] == b[..n]
    && (n == |a| || (n < |b| && a[n] < b[n]))
  }

  lemma {:induction false} NotLessAgrees(a: string, b: string) returns (n: nat)
    requires !Less(b, a)
    ensures AgreesUntil(a, b, n)
  {
    if a != [] && a[0] == b[0] {
      n := NotLessAgrees(a[1..], b[1..]);
      assert a[..n + 1] == [a[0]] + a[1..][..n] && b[..n + 1] == [b[0]] + b[1..][..n];
      n := n + 1;
    } else {
      n := 0;
    }
  }

  /** In the sorted list start times do not decrease, and where they are equal the actions are in
      alphabetical order. */
  lemma SortedTells(operations: map<OpId, Operation>, ids: seq<OpId>, i: nat, j: nat)
    requires forall id :: id in ids ==> id in operations
    requires Sorted(operations, ids) && i < j < |ids|
    ensures var a, b := operations[ids[i]], operations[ids[j]];
      && a.startedAt <= b.startedAt
      && (a.startedAt == b.startedAt ==> exists n :: AgreesUntil(Action(a.kind), Action(b.kind), n))
  {
    var a, b := operations[ids[i]], operations[ids[j]];
    if a.startedAt == b.startedAt {
      var n := NotLessAgrees(Action(a.kind), Action(b.kind));
    }
  }

  // ---- The source's methods ---------------------------------------------------------------

  /** SnapshotPendingOperations.  std::sort is any sort: here, by insertion. */
  method SnapshotPendingOperations(operations: map<OpId, Operation>, pending: set<OpId>) returns (ids: seq<OpId>)
    requires pending <= operations.Keys
    ensures multiset(ids) == multiset(pending)
    ensures forall id :: id in ids ==> id in operations
    ensures Sorted(operations, ids)
  {
    ids := [];
    var remaining := pending;
    while remaining != {}
      invariant remaining <= pending
      invariant multiset(ids) == multiset(pending - remaining)
      invariant forall id :: id in ids ==> id in operations
      invariant Sorted(operations, ids)
      decreases remaining
    {
      var id :| id in remaining;
      InsertedSorted(operations, id, ids);
      ids := Inserted(operations, id, ids);
      assert pending - (remaining - {id}) == (pending - remaining) + {id};
      remaining := remaining - {id};
    }
    assert pending - remaining == pending;
  }

  /** What the error shows: the primary operation, if any, and then the others in order. */
  ghost predicate Listing(operations: map<OpId, Operation>, pending: set<OpId>, primary: Option<OpId>, ids: seq<OpId>) {
    && (forall id :: id in ids ==> id in operations)
    && match primary
       case None => multiset(ids) == multiset(pending) && Sorted(operations, ids)
       case Some(p) =>
         && ids != [] && ids[0] == p
         && multiset(ids) == multiset(pending - {p}) + multiset{p}
         && Sorted(operations, ids[1..])
  }

  /** PendingOperationsToJs: the order of the entries of the array. */
  method PendingOperationsToJs(operations: map<OpId, Operation>, pending: set<OpId>, primary: Option<OpId>)
    returns (ids: seq<OpId>)
    requires pending <= operations.Keys
    requires primary.Some? ==> primary.value in operations
    ensures Listing(operations, pending, primary, ids)
  {
    hide Listing, Sorted;
    var snapshot := SnapshotPendingOperations(operations, pending);
    ids := [];
    if primary.Some? {
      ids := [primary.value];
    }
    ghost var head := ids;
    var k := 0;
    assert Without(snapshot[..0], primary) == [] && head + [] == head;
    while k < |snapshot|
      invariant 0 <= k <= |snapshot|
      invariant ids == head + Without(snapshot[..k], primary)
    {
      WithoutStep(snapshot, k, primary);
      if primary != Some(snapshot[k]) {
        ids := ids + [snapshot[k]];
      }
      k := k + 1;
    }
    assert snapshot[..|snapshot|] == snapshot;
    WithoutListing(operations, snapshot, pending, primary);
  }

  lemma WithoutStep(ids: seq<OpId>, k: nat, primary: Option<OpId>)
    requires k < |ids|
    ensures Without(ids[..k + 1], primary) ==
      Without(ids[..k], primary) + if primary == Some(ids[k]) then [] else [ids[k]]
  {
    assert ids[..k + 1][..k] == ids[..k];
  }

  lemma WithoutListing(operations: map<OpId, Operation>, ids: seq<OpId>, pending: set<OpId>, primary: Option<OpId>)
    requires forall id :: id in ids ==> id in operations
    requires Sorted(operations, ids) && multiset(ids) == multiset(pending)
    requires primary.Some? ==> primary.value in operations
    ensures Listing(operations, pending, primary,
                    (if primary.Some? then [primary.value] else []) + Without(ids, primary))
  {
    hide Earlier;
    WithoutKeepsOrder(operations, ids, primary);
    WithoutContents(ids, pending, primary);
    var others := Without(ids, primary);
    match primary
    case None =>
      assert [] + others == others;
    case Some(p) =>
      assert ([p] + others)[1..] == others;
  }

  function Without(ids: seq<OpId>, primary: Option<OpId>): seq<OpId> {
    if ids == [] then []
    else
      var rest := Without(ids[..|ids| - 1], primary);
      if primary == Some(ids[|ids| - 1]) then rest else rest + [ids[|ids| - 1]]
  }

  lemma {:induction false} WithoutKeepsOrder(operations: map<OpId, Operation>, ids: seq<OpId>, primary: Option<OpId>)
    requires forall id :: id in ids ==> id in operations
    requires Sorted(operations, ids)
    ensures forall id :: id in Without(ids, primary) ==> id in ids
    ensures Sorted(operations, Without(ids, primary))
  {
    if ids != [] {
      var n := |ids| - 1;
      WithoutKeepsOrder(operations, ids[..n], primary);
      var rest := Without(ids[..n], primary);
      forall i | 0 <= i < |rest| ensures !Earlier(operations[ids[n]], operations[rest[i]]) {
        assert rest[i] in ids[..n];
      }
    }
  }

  lemma {:induction false} WithoutMultiset(ids: seq<OpId>, primary: Option<OpId>)
    ensures multiset(Without(ids, primary)) == match primary
      case None => multiset(ids)
      case Some(p) => multiset(ids)[p := 0]
  {
    if ids != [] {
      var n := |ids| - 1;
      WithoutMultiset(ids[..n], primary);
      assert ids == ids[..n] + [ids[n]];
    }
  }

  lemma WithoutContents(ids: seq<OpId>, pending: set<OpId>, primary: Option<OpId>)
    requires multiset(ids) == multiset(pending)
    ensures multiset(Without(ids, primary)) == match primary
      case None => multiset(pending)
      case Some(p) => multiset(pending - {p})
  {
    WithoutMultiset(ids, primary);
  }

  /** The array is a permutation of the pending operations exactly when the rejected operation
      is one of them. */
  lemma ListingIsPermutation(operations: map<OpId, Operation>, pending: set<OpId>, p: OpId, ids: seq<OpId>)
    requires Listing(operations, pending, Some(p), ids)
    ensures multiset(ids) == multiset(pending) <==> p in pending
  {
    if p in pending {
      assert (pending - {p}) + {p} == pending;
      assert multiset(ids) == multiset(pending);
    } else {
      assert multiset(ids)[p] == 1;
    }
  }
}
