/**
 The walk one turn of its loop at a time, on any tree at all: when it ends and when it cannot.
 */
module Turns {
  import opened Options
  import opened Texts
  import opened Walk
  import opened Walker
  import Paths

  /** What a directory adds to the queue. */
  function Listed(dir: Text, entries: seq<Entry>): seq<Queued> {
    if entries == [] then []
    else
      var e := Described(dir, entries[0]);
      (if IsSpecial(e.name) then [] else [Queued(e.path, e.isDirectory)]) + Listed(dir, entries[1..])
  }

  /** One turn: the queue after it, or None if the walk fails. */
  function Turn(tree: Node, maxRead: nat, queue: seq<Queued>): Option<seq<Queued>>
    requires queue != []
  {
    var current := queue[0];
    var found := Find(tree, Where(current.path));
    if found.None? || found.value.Dir? != current.isDirectory then None
    else if current.isDirectory then
      Some(queue[1..] + Listed(Paths.NormalizeSmbPath(current.path), found.value.entries))
    else if ChunkRefused(maxRead) then None
    else Some(queue[1..])
  }

  /** At most `n` turns, until the queue is empty or the walk fails. */
  function Turns(tree: Node, maxRead: nat, queue: seq<Queued>, n: nat): Option<seq<Queued>>
    decreases n
  {
    if n == 0 || queue == [] then Some(queue)
    else
      match Turn(tree, maxRead, queue)
      case None => None
      case Some(rest) => Turns(tree, maxRead, rest, n - 1)
  }

  lemma {:induction false} TurnsAdd(tree: Node, maxRead: nat, queue: seq<Queued>, n: nat, more: nat)
    ensures Turns(tree, maxRead, queue, n + more) ==
      match Turns(tree, maxRead, queue, n)
      case None => None
      case Some(rest) => Turns(tree, maxRead, rest, more)
    decreases n
  {
    hide Turn;
    if n > 0 && queue != [] && Turn(tree, maxRead, queue).Some? {
      TurnsAdd(tree, maxRead, Turn(tree, maxRead, queue).value, n - 1, more);
    }
  }

  // ---- Walks that end ---------------------------------------------------------------------

  lemma {:induction false} OffspringListed(dir: Text, top: bool, base: Option<Node>, entries: seq<Entry>)
    requires ListableEntries(entries)
    ensures AsQueued(Offspring(dir, top, base, entries)) == Listed(dir, entries)
  {
    hide Paths.Join, Resolve, Paths.Clean, Paths.Blank, Listable;
    if entries != [] {
      OffspringListed(dir, top, base, entries[1..]);
      var others := Offspring(dir, top, base, entries[1..]);
      if entries[0].Child? {
        var first := ChildVisit(dir, top, base, entries[0]);
        assert Offspring(dir, top, base, entries) == [first] + others;
        assert AsQueued([first] + others) == [Queued(first.path, first.listed)] + AsQueued(others);
      } else {
        assert Offspring(dir, top, base, entries) == others;
        assert Listed(dir, entries) == Listed(dir, entries[1..]);
      }
    }
  }

  ghost predicate AllTracked(tree: Node, visits: seq<Visit>) {
    forall i :: 0 <= i < |visits| ==> Tracks(tree, visits[i])
  }

  lemma {:induction false} OffspringTracked(tree: Node, v: Visit, k: nat)
    requires Tracks(tree, v) && Opens(v) && k <= |v.found.value.entries|
    ensures AllTracked(tree, Offspring(Paths.NormalizeSmbPath(v.path), v.top, v.base, v.found.value.entries[k..]))
    decreases |v.found.value.entries| - k
  {
    hide Tracks, Paths.NormalizeSmbPath, ChildVisit;
    var entries := v.found.value.entries;
    if k < |entries| {
      assert entries[k..][1..] == entries[k + 1..];
      OffspringTracked(tree, v, k + 1);
      if entries[k].Child? {
        EntryTracked(tree, v, k);
      }
    }
  }

  /** A turn shifts the next visit off the queue and adds what it queues. */
  lemma TurnMeets(tree: Node, maxRead: nat, visits: seq<Visit>)
    requires AllTracked(tree, visits) && visits != []
    ensures var next := visits[1..] + Queues(visits[0]);
      && AllTracked(tree, next)
      && Turn(tree, maxRead, AsQueued(visits)) == if Stops(visits[0], maxRead) then None else Some(AsQueued(next))
  {
    var v := visits[0];
    hide Tracks, Paths.NormalizeSmbPath, ChunkRefused, Offspring, Listed, AsQueued;
    Leads(tree, v);
    TrackedQueue(tree, v);
    QueuedTail(visits, Queues(v));
    if !Opens(v) {
      assert AsQueued([]) == [] && AsQueued(visits)[1..] + [] == AsQueued(visits)[1..];
    }
  }

  lemma TrackedQueue(tree: Node, v: Visit)
    requires Tracks(tree, v)
    ensures AllTracked(tree, Queues(v))
    ensures Opens(v) ==> AsQueued(Queues(v)) == Listed(Paths.NormalizeSmbPath(v.path), v.found.value.entries)
    ensures !Opens(v) ==> Queues(v) == []
  {
    hide Tracks, Paths.NormalizeSmbPath, Offspring, Listed, AsQueued;
    if Opens(v) {
      var entries := v.found.value.entries;
      TrackedListable(tree, v);
      OffspringListed(Paths.NormalizeSmbPath(v.path), v.top, v.base, entries);
      OffspringTracked(tree, v, 0);
      assert entries[0..] == entries;
    }
  }

  lemma QueuedTail(visits: seq<Visit>, more: seq<Visit>)
    requires visits != []
    ensures AsQueued(visits)[0] == Queued(visits[0].path, visits[0].listed)
    ensures AsQueued(visits[1..] + more) == AsQueued(visits)[1..] + AsQueued(more)
  {
  }

  lemma {:induction false} CourseEnds(tree: Node, maxRead: nat, visits: seq<Visit>)
    requires AllTracked(tree, visits)
    ensures Turns(tree, maxRead, AsQueued(visits), |Course(visits)|)
         == if Succeeds(Course(visits), maxRead) then Some([]) else None
    decreases QueueCost(visits)
  {
    hide AllTracked, Queues, QueueCost, Turn, Stops;
    if visits == [] {
      assert AsQueued(visits) == [];
    } else {
      var next := visits[1..] + Queues(visits[0]);
      CourseShrinks(visits);
      TurnMeets(tree, maxRead, visits);
      CourseEnds(tree, maxRead, next);
      assert Course(visits) == [visits[0]] + Course(next);
      if Stops(visits[0], maxRead) {
        assert [] + [visits[0]] + Course(next) == Course(visits);
        StoppedHere([], visits[0], Course(next), maxRead);
      } else {
        StillSucceedsAfter(visits[0], Course(next), maxRead);
      }
    }
  }

  lemma StillSucceedsAfter(v: Visit, rest: seq<Visit>, maxRead: nat)
    requires !Stops(v, maxRead)
    ensures Succeeds([v] + rest, maxRead) <==> Succeeds(rest, maxRead)
  {
    hide Stops;
    var all := [v] + rest;
    assert forall i :: 0 <= i < |rest| ==> all[i + 1] == rest[i];
    if Succeeds(rest, maxRead) {
      forall i | 0 <= i < |all| ensures !Stops(all[i], maxRead) {
        assert i > 0 ==> all[i] == rest[i - 1];
      }
    }
  }

  /** A walk that meets no blank directory name is over after as many turns as it meets paths. */
  lemma WalkEnds(tree: Node, root: Text, maxRead: nat)
    requires Walkable(tree, root) && Find(tree, Where(root)).Some?
    ensures Turns(tree, maxRead, [Queued(root, Find(tree, Where(root)).value.Dir?)], |Met(tree, root)|)
         == if Succeeds(Met(tree, root), maxRead) then Some([]) else None
  {
    hide Walkable, Course, Succeeds, Tracks;
    StartRepresents(tree, root);
    CourseEnds(tree, maxRead, [Start(tree, root)]);
  }

  // ---- Walks that do not ------------------------------------------------------------------

  predicate IsBlankDirectory(e: Entry) {
    e.Child? && e.node.Dir? && Paths.Clean(e.name) && Paths.Blank(e.name)
  }

  /** A path in the queue that leads to a directory which lists a directory with a blank name. */
  predicate Circular(tree: Node, q: Queued) {
    var dir, there := Paths.NormalizeSmbPath(q.path), Find(tree, Where(q.path));
    && q.isDirectory
    && (dir == [] || !Paths.IsSpace(dir[0]))
    && there.Some? && there.value.Dir?
    && exists e :: e in there.value.entries && IsBlankDirectory(e)
  }

  lemma {:induction false} ListedHas(dir: Text, entries: seq<Entry>, e: Entry)
    requires e in entries && IsBlankDirectory(e)
    ensures Queued(Paths.Join(dir, e.name), true) in Listed(dir, entries)
  {
    hide Paths.Join;
    if entries[0] != e {
      ListedHas(dir, entries[1..], e);
    } else {
      assert Paths.IsSpace(e.name[0]) && e.name[0] != 0x2E;
    }
  }

  /** The path of that directory is such a path itself. */
  lemma CircularAgain(tree: Node, q: Queued, e: Entry)
    requires Circular(tree, q) && e in Find(tree, Where(q.path)).value.entries && IsBlankDirectory(e)
    ensures Circular(tree, Queued(Paths.Join(Paths.NormalizeSmbPath(q.path), e.name), true))
  {
    hide Paths.NormalizeSmbPath, Paths.Join, Paths.IsSpace, Paths.Segments, Paths.Canonical, Paths.Clean;
    var dir := Paths.NormalizeSmbPath(q.path);
    var path := Paths.Join(dir, e.name);
    Paths.BlankLeadsBack(dir, e.name);
    Paths.NormalizedShape(q.path);
    Paths.NormalizedShape(path);
    var again := Paths.NormalizeSmbPath(path);
    Paths.NotEmpty(dir);
    Paths.NotEmpty(again);
    if again != [] {
      Paths.FirstSegment(dir);
      Paths.FirstSegment(again);
    }
  }

  lemma TurnStaysCircular(tree: Node, maxRead: nat, queue: seq<Queued>, q: Queued) returns (next: Queued)
    requires q in queue && Circular(tree, q) && Turn(tree, maxRead, queue).Some?
    ensures next in Turn(tree, maxRead, queue).value && Circular(tree, next)
  {
    hide Paths.NormalizeSmbPath, Paths.Join, Paths.Clean, Paths.Blank, Listed;
    if q in queue[1..] {
      next := q;
    } else {
      assert q == queue[0];
      var dir, entries := Paths.NormalizeSmbPath(q.path), Find(tree, Where(q.path)).value.entries;
      var e :| e in entries && IsBlankDirectory(e);
      next := Queued(Paths.Join(dir, e.name), true);
      ListedHas(dir, entries, e);
      CircularAgain(tree, q, e);
    }
  }

  lemma {:induction false} CircularForEver(tree: Node, maxRead: nat, queue: seq<Queued>, q: Queued, n: nat)
    requires q in queue && Circular(tree, q)
    ensures Turns(tree, maxRead, queue, n) != Some([])
    decreases n
  {
    hide Circular, Turn;
    if n > 0 && Turn(tree, maxRead, queue).Some? {
      var next := TurnStaysCircular(tree, maxRead, queue, q);
      CircularForEver(tree, maxRead, Turn(tree, maxRead, queue).value, next, n - 1);
    }
  }

  /** A walk in whose queue there is ever a path to a directory that lists a directory with a blank
      name does not end, unless it fails. */
  lemma BlankDirectoryNeverEnds(tree: Node, maxRead: nat, start: seq<Queued>, k: nat, q: Queued, n: nat)
    requires var queue := Turns(tree, maxRead, start, k); queue.Some? && q in queue.value && Circular(tree, q)
    ensures Turns(tree, maxRead, start, n) != Some([])
  {
    hide Circular, Turn;
    if n < k {
      TurnsAdd(tree, maxRead, start, n, k - n);
    } else {
      TurnsAdd(tree, maxRead, start, k, n - k);
      CircularForEver(tree, maxRead, Turns(tree, maxRead, start, k).value, q, n - k);
    }
  }
}
