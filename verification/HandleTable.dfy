/**
 One table of native handles (`file_handles_` or `dir_handles_`) with its 32-bit id counter.

 The model also keeps where every native handle ever delivered by libsmb2 is now (`place`),
 every close call made (`handed`) and the history of the table (`log`).
 */
module HandleTable {
  import opened Texts

  type Native = nat

  const ID_SPACE: nat := 0x1_0000_0000

  datatype Entry = Entry(native: Native, path: Text)

  /** Where a delivered native handle is: in the table under an id, handed to a close call, or
      dropped, known to nobody and not closed.  libsmb2 frees a handle when it is closed and at no
      other time, so a dropped one is lost. */
  datatype Place = At(id: nat) | Handed | Dropped

  datatype TableEvent = Opened(id: nat, entry: Entry) | Closed(id: nat) | TornDown

  datatype Table = Table(
    entries: map<nat, Entry>,
    next: nat,                   // the uint32_t counter
    opens: nat,                  // insertions so far
    delivered: nat,              // native handles 0 .. delivered - 1 have been delivered
    place: map<Native, Place>,
    handed: multiset<Native>,    // close calls made
    log: seq<TableEvent>)

  const EMPTY := Table(map[], 1, 0, 0, map[], multiset{}, [])

  // ---- Transitions ------------------------------------------------------------------------

  /** A successful open delivers a fresh native handle, which goes into the table under the
      next id.  `emplace` leaves an entry alone that is already there, and the new handle is lost. */
  function Insert(t: Table, path: Text): Table {
    var entry := Entry(t.delivered, path);
    t.(entries := if t.next in t.entries then t.entries else t.entries[t.next := entry],
       next := (t.next + 1) % ID_SPACE,
       opens := t.opens + 1,
       delivered := t.delivered + 1,
       place := t.place[t.delivered := if t.next in t.entries then Dropped else At(t.next)],
       log := t.log + [Opened(t.next, entry)])
  }

  /** A handle delivered to an operation nobody waits for goes straight to a close call. */
  function Bounce(t: Table): Table {
    t.(delivered := t.delivered + 1,
       place := t.place[t.delivered := Handed],
       handed := t.handed + multiset{t.delivered})
  }

  /** A handle delivered when there is no context to close it on. */
  function Abandon(t: Table): Table {
    t.(delivered := t.delivered + 1, place := t.place[t.delivered := Dropped])
  }

  /** Takes an entry out of the table and hands its native handle to a close call. */
  function HandOver(t: Table, id: nat): Table
    requires id in t.entries
  {
    var native := t.entries[id].native;
    t.(entries := t.entries - {id},
       place := t.place[native := Handed],
       handed := t.handed + multiset{native},
       log := t.log + [Closed(id)])
  }

  /** Takes an entry out of the table without a close call. */
  function Forget(t: Table, id: nat): Table
    requires id in t.entries
  {
    t.(entries := t.entries - {id},
       place := t.place[t.entries[id].native := Dropped],
       log := t.log + [Closed(id)])
  }

  /** Teardown: the table is cleared, and its native handles are dropped. */
  function Clear(t: Table): Table {
    t.(entries := map[],
       place := map h | h in t.place :: if t.place[h].At? then Dropped else t.place[h],
       log := t.log + [TornDown])
  }

  // ---- What the history says --------------------------------------------------------------

  /** The table an ideal counter and an ideal map would hold after a history. */
  function Replay(log: seq<TableEvent>): map<nat, Entry> {
    if log == [] then map[]
    else
      var rest := Replay(log[..|log| - 1]);
      match log[|log| - 1]
      case Opened(id, entry) => rest[id := entry]
      case Closed(id) => rest - {id}
      case TornDown => map[]
  }

  /** No id is issued twice. */
  ghost predicate IssuedOnce(log: seq<TableEvent>) {
    forall i, j :: 0 <= i < j < |log| && log[i].Opened? && log[j].Opened? ==> log[i].id != log[j].id
  }

  /** Every delivered handle is in exactly one place, and the table holds those that are in it. */
  ghost predicate Located(t: Table) {
    && t.next == (t.opens + 1) % ID_SPACE
    && (forall id :: id in t.entries ==>
          && 1 <= id <= t.opens
          && t.entries[id].native in t.place
          && t.place[t.entries[id].native] == At(id))
    && (forall h: Native :: h in t.place <==> h < t.delivered)
    && (forall h :: h in t.place && t.place[h].At? ==>
          t.place[h].id in t.entries && t.entries[t.place[h].id].native == h)
    && (forall h :: t.handed[h] == if h in t.place && t.place[h] == Handed then 1 else 0)
  }

  /** The table is its history, and ids are issued once. */
  ghost predicate Recorded(t: Table) {
    && t.entries == Replay(t.log)
    && IssuedOnce(t.log)
    && (forall i :: 0 <= i < |t.log| && t.log[i].Opened? ==> 1 <= t.log[i].id <= t.opens)
  }

  /** Claimed below 2^32 opens only. */
  ghost predicate TableInv(t: Table) {
    t.opens < ID_SPACE ==> Located(t) && Recorded(t)
  }

  lemma EmptyTable()
    ensures TableInv(EMPTY)
  {
    assert Replay([]) == map[];
  }

  lemma InsertKeeps(t: Table, path: Text)
    requires TableInv(t)
    ensures TableInv(Insert(t, path))
  {
    if t.opens + 1 < ID_SPACE {
      InsertLocated(t, path);
      InsertRecorded(t, path);
    }
    hide Located, Recorded;
  }

  lemma InsertLocated(t: Table, path: Text)
    requires Located(t) && t.opens + 1 < ID_SPACE
    ensures Located(Insert(t, path))
  {
    assert t.next == t.opens + 1 && t.next !in t.entries;
    assert t.delivered !in t.place && t.handed[t.delivered] == 0;
  }

  lemma InsertRecorded(t: Table, path: Text)
    requires Located(t) && Recorded(t) && t.opens + 1 < ID_SPACE
    ensures Recorded(Insert(t, path))
  {
    var r, entry := Insert(t, path), Entry(t.delivered, path);
    assert t.next == t.opens + 1 && t.next !in t.entries;
    hide Located;
    assert r.log[..|r.log| - 1] == t.log;
    assert Replay(r.log) == Replay(t.log)[t.next := entry];
    hide Replay;
    forall i, j | 0 <= i < j < |r.log| && r.log[i].Opened? && r.log[j].Opened?
      ensures r.log[i].id != r.log[j].id
    {
      assert r.log[i] == t.log[i];
      if j < |t.log| {
        assert r.log[j] == t.log[j];
      }
    }
  }

  lemma BounceKeeps(t: Table)
    requires TableInv(t)
    ensures TableInv(Bounce(t))
  {
    if t.opens < ID_SPACE {
      assert t.delivered !in t.place && t.handed[t.delivered] == 0;
    }
  }

  lemma AbandonKeeps(t: Table)
    requires TableInv(t)
    ensures TableInv(Abandon(t))
  {
    if t.opens < ID_SPACE {
      assert t.delivered !in t.place && t.handed[t.delivered] == 0;
    }
  }

  lemma HandOverKeeps(t: Table, id: nat)
    requires TableInv(t) && id in t.entries
    ensures TableInv(HandOver(t, id))
  {
    var r := HandOver(t, id);
    assert r.log[..|r.log| - 1] == t.log;
    assert Replay(r.log) == Replay(t.log) - {id};
    hide Replay;
  }

  lemma ForgetKeeps(t: Table, id: nat)
    requires TableInv(t) && id in t.entries
    ensures TableInv(Forget(t, id))
  {
    if t.opens < ID_SPACE {
      ForgetLocated(t, id);
      var r := Forget(t, id);
      assert r.log[..|r.log| - 1] == t.log;
      assert Replay(r.log) == Replay(t.log) - {id};
      hide Replay, Located;
    }
  }

  lemma ForgetLocated(t: Table, id: nat)
    requires Located(t) && id in t.entries
    ensures Located(Forget(t, id))
  {
    hide Recorded;
  }

  lemma ClearKeeps(t: Table)
    requires TableInv(t)
    ensures TableInv(Clear(t))
  {
    var r := Clear(t);
    assert r.log[..|r.log| - 1] == t.log;
  }

  // ---- Conservation -----------------------------------------------------------------------

  ghost predicate InTable(t: Table, h: Native) {
    exists id :: id in t.entries && t.entries[id].native == h
  }

  ghost predicate WasDropped(t: Table, h: Native) {
    h in t.place && t.place[h] == Dropped
  }

  ghost predicate Held(t: Table, h: Native) {
    h in t.place && t.place[h].At?
  }

  /** From `t` to `u` no handle enters the table, and those that leave it are dropped; claimed below
      2^32 opens. */
  ghost predicate Sheds(t: Table, u: Table) {
    && u.opens == t.opens
    && (t.opens < ID_SPACE ==> forall h: Native ::
          && (Held(u, h) ==> Held(t, h))
          && (Held(u, h) || WasDropped(u, h) <==> Held(t, h) || WasDropped(t, h)))
  }

  /** From `a` to `b` no entry has changed, and no id that was gone has come back; claimed below 2^32
      opens. */
  ghost predicate Continues(a: Table, b: Table) {
    && a.opens <= b.opens
    && (b.opens < ID_SPACE ==> forall id :: id in b.entries && id <= a.opens ==>
          id in a.entries && b.entries[id] == a.entries[id])
  }

  lemma ContinuesTrans(a: Table, b: Table, c: Table)
    requires Continues(a, b) && Continues(b, c)
    ensures Continues(a, c)
  {
  }

  lemma BounceContinues(t: Table)
    ensures Continues(t, Bounce(t)) && Continues(t, t) && Bounce(t).entries == t.entries
  {
  }

  lemma InsertContinues(t: Table, path: Text)
    requires TableInv(t)
    ensures Continues(t, Insert(t, path))
  {
  }

  lemma ShedsTrans(a: Table, b: Table, c: Table)
    requires Sheds(a, b) && Sheds(b, c)
    ensures Sheds(a, c)
  {
  }

  lemma ClearSheds(t: Table)
    ensures Sheds(t, Clear(t))
  {
  }

  lemma BounceSheds(t: Table)
    requires TableInv(t)
    ensures Sheds(t, Bounce(t))
  {
    if t.opens < ID_SPACE {
      assert t.delivered !in t.place;
    }
  }

  lemma HeldInTable(t: Table, h: Native)
    requires TableInv(t) && t.opens < ID_SPACE
    ensures Held(t, h) <==> InTable(t, h)
    ensures InTable(t, h) ==> !WasDropped(t, h)
  {
  }

  /** Every delivered handle is in the table under exactly one id, or was handed to exactly
      one close call, or was dropped; no other handle is anywhere. */
  lemma HandlesConserved(t: Table, h: Native)
    requires TableInv(t) && t.opens < ID_SPACE
    ensures h < t.delivered <==> InTable(t, h) || t.handed[h] > 0 || WasDropped(t, h)
    ensures t.handed[h] <= 1
    ensures InTable(t, h) ==> t.handed[h] == 0 && !WasDropped(t, h)
    ensures t.handed[h] > 0 ==> !WasDropped(t, h)
    ensures forall i, j ::
      i in t.entries && j in t.entries && t.entries[i].native == h && t.entries[j].native == h ==> i == j
  {
    if h < t.delivered && t.place[h].At? {
      assert t.place[h].id in t.entries;
    }
  }

  ghost predicate LastMention(log: seq<TableEvent>, id: nat, k: int) {
    && 0 <= k < |log| && log[k].Opened? && log[k].id == id
    && (forall j :: k < j < |log| ==> log[j] != Closed(id) && !log[j].TornDown?)
  }

  /** With ids issued once, an id is in the replayed table exactly when it was opened and
      neither closed nor torn down since. */
  lemma {:induction false} ReplayPresence(log: seq<TableEvent>, id: nat)
    requires IssuedOnce(log)
    ensures id in Replay(log) <==> exists k :: LastMention(log, id, k)
    ensures forall k :: LastMention(log, id, k) ==> id in Replay(log) && Replay(log)[id] == log[k].entry
  {
    if log != [] {
      var n := |log| - 1;
      var before, last := log[..n], log[n];
      assert IssuedOnce(before);
      ReplayPresence(before, id);
      forall k | LastMention(log, id, k) && k < n
        ensures LastMention(before, id, k) && (last.Opened? ==> last.id != id)
      {
        assert before[k] == log[k];
        assert forall j :: k < j < n ==> before[j] == log[j];
      }
      if last.Opened? && last.id == id {
        assert LastMention(log, id, n);
      } else if id in Replay(log) {
        var k :| LastMention(before, id, k);
        assert LastMention(log, id, k);
      }
    }
  }

  /** What the history says about an id: it is in the table exactly when its open succeeded and
      neither a close nor a teardown came after, it names the handle that open delivered, and it
      is below the next id to be issued. */
  ghost predicate TellsHistory(t: Table, id: nat) {
    && (id in t.entries <==> exists k :: LastMention(t.log, id, k))
    && (forall k :: LastMention(t.log, id, k) ==> id in t.entries && t.entries[id] == t.log[k].entry)
    && (id in t.entries && t.opens + 1 < ID_SPACE ==> id < t.next)
  }

  lemma TableTellsHistory(t: Table, id: nat)
    requires TableInv(t) && t.opens < ID_SPACE
    ensures TellsHistory(t, id)
  {
    ReplayPresence(t.log, id);
  }
}
