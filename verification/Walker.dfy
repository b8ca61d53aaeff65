/**
 The walk itself.  A path that Readdir reports leads where the wrapper's normalisation takes it,
 which for a name with white space at its ends is not the entry it was reported for; so what the
 walk meets is stated by looking every path up.  Where all names are safe, that is the tree.
 */
module Walker {
  import opened Options
  import opened Texts
  import opened Walk
  import Paths

  /** What an SMB server lists: names without separators, each once.  A directory whose name is
      blank is left out, because with it the walk never ends. */
  predicate Listable(node: Node)
    decreases node
  {
    node.Dir? ==> ListableEntries(node.entries)
  }

  predicate ListableEntries(entries: seq<Entry>)
    decreases entries
  {
    entries != [] ==>
      && (entries[0].Child? ==>
            && Paths.Clean(entries[0].name) && !IsSpecial(entries[0].name)
            && (entries[0].node.Dir? ==> !Paths.Blank(entries[0].name))
            && Listable(entries[0].node))
      && ListableEntries(entries[1..])
  }

  lemma {:induction false} ListableEntry(entries: seq<Entry>, k: nat)
    requires ListableEntries(entries) && k < |entries| && entries[k].Child?
    ensures Paths.Clean(entries[k].name) && !IsSpecial(entries[k].name) && Listable(entries[k].node)
    ensures entries[k].node.Dir? ==> !Paths.Blank(entries[k].name)
  {
    if k > 0 {
      ListableEntry(entries[1..], k - 1);
    }
  }

  lemma {:induction false} ListableFound(entries: seq<Entry>, name: Text)
    requires ListableEntries(entries) && FindEntry(entries, name).Some?
    ensures Listable(FindEntry(entries, name).value)
  {
    if !(entries[0].Child? && entries[0].name == name) {
      ListableFound(entries[1..], name);
    }
  }

  // ---- What the walk meets ----------------------------------------------------------------

  /** A path in the queue: whether it was listed as a directory, what it leads to, and what its
      normal form leads to, below which the paths of its entries lead.  That is the same place,
      unless the normal form starts with white space.  `top` says that the normal form is empty. */
  datatype Visit = Visit(path: Text, top: bool, listed: bool, found: Option<Node>, base: Option<Node>)

  /** What the path of an entry leads to.  A blank name leads back; that of a directory, with which
      a walk never ends, is left out. */
  function Resolve(top: bool, base: Option<Node>, name: Text, isDirectory: bool): Option<Node> {
    if Paths.Blank(name) then (if isDirectory then None else base)
    else if base.None? || base.value.File? then None
    else FindEntry(base.value.entries, Paths.Effective(top, name))
  }

  function ChildVisit(dir: Text, top: bool, base: Option<Node>, e: Entry): Visit
    requires e.Child?
  {
    var found := Resolve(top, base, e.name, e.node.Dir?);
    Visit(Paths.Join(dir, e.name), false, e.node.Dir?, found, found)
  }

  function Offspring(dir: Text, top: bool, base: Option<Node>, rest: seq<Entry>): seq<Visit> {
    if rest == [] then []
    else (if rest[0].Child? then [ChildVisit(dir, top, base, rest[0])] else []) + Offspring(dir, top, base, rest[1..])
  }

  predicate Opens(v: Visit) {
    v.listed && v.found.Some? && v.found.value.Dir?
  }

  function Queues(v: Visit): seq<Visit> {
    if Opens(v) then Offspring(Paths.NormalizeSmbPath(v.path), v.top, v.base, v.found.value.entries) else []
  }

  /** The path does not lead to what the listing announced. */
  predicate Broken(v: Visit) {
    v.found.None? || v.found.value.Dir? != v.listed
  }

  // ---- Termination ------------------------------------------------------------------------

  function Cost(top: bool, node: Node): (n: nat)
    ensures n > 0
    decreases node, if node.Dir? then |node.entries| + 1 else 0
  {
    if node.File? then 1 else 1 + EntriesCost(top, Some(node), node.entries)
  }

  function EntriesCost(top: bool, base: Option<Node>, rest: seq<Entry>): nat
    decreases if base.Some? then base.value else File(0), |rest|
  {
    if rest == [] then 0
    else
      (if !rest[0].Child? then 0
       else
         var found := Resolve(top, base, rest[0].name, rest[0].node.Dir?);
         if rest[0].node.File? || found.None? then 1
         else
           EntryIsSmaller(base.value, Paths.Effective(top, rest[0].name));
           Cost(false, found.value))
      + EntriesCost(top, base, rest[1..])
  }

  lemma EntryIsSmaller(node: Node, name: Text)
    requires node.Dir? && FindEntry(node.entries, name).Some?
    ensures FindEntry(node.entries, name).value < node
  {
    var e :| e in node.entries && e.Child? && e.name == name && e.node == FindEntry(node.entries, name).value;
  }

  function VisitCost(v: Visit): (n: nat)
    ensures n > 0
  {
    if Opens(v) then 1 + EntriesCost(v.top, v.base, v.found.value.entries) else 1
  }

  function QueueCost(queue: seq<Visit>): nat {
    if queue == [] then 0 else VisitCost(queue[0]) + QueueCost(queue[1..])
  }

  lemma {:induction false} QueueCostAppend(a: seq<Visit>, b: seq<Visit>)
    ensures QueueCost(a + b) == QueueCost(a) + QueueCost(b)
  {
    hide VisitCost;
    if a == [] {
      assert a + b == b;
    } else {
      assert (a + b)[1..] == a[1..] + b;
      QueueCostAppend(a[1..], b);
    }
  }

  lemma {:induction false} OffspringCost(dir: Text, top: bool, base: Option<Node>, rest: seq<Entry>)
    ensures QueueCost(Offspring(dir, top, base, rest)) == EntriesCost(top, base, rest)
    decreases |rest|
  {
    hide Paths.Join, Cost, Resolve, VisitCost;
    if rest != [] {
      OffspringCost(dir, top, base, rest[1..]);
      var others := Offspring(dir, top, base, rest[1..]);
      if rest[0].Child? {
        var first := ChildVisit(dir, top, base, rest[0]);
        assert Offspring(dir, top, base, rest) == [first] + others;
        assert ([first] + others)[1..] == others;
        ChildCost(dir, top, base, rest[0]);
      } else {
        assert Offspring(dir, top, base, rest) == others;
      }
    }
  }

  lemma ChildCost(dir: Text, top: bool, base: Option<Node>, e: Entry)
    requires e.Child?
    ensures var found := Resolve(top, base, e.name, e.node.Dir?);
      VisitCost(ChildVisit(dir, top, base, e)) == if e.node.File? || found.None? then 1 else Cost(false, found.value)
  {
    hide Paths.Join, Resolve, EntriesCost;
  }

  lemma CourseShrinks(queue: seq<Visit>)
    requires queue != []
    ensures QueueCost(queue[1..] + Queues(queue[0])) < QueueCost(queue)
  {
    var v := queue[0];
    QueueCostAppend(queue[1..], Queues(v));
    if Opens(v) {
      OffspringCost(Paths.NormalizeSmbPath(v.path), v.top, v.base, v.found.value.entries);
    }
  }

  /** Everything the walk shifts off its queue, in order. */
  function Course(queue: seq<Visit>): seq<Visit>
    decreases QueueCost(queue)
  {
    if queue == [] then []
    else
      CourseShrinks(queue);
      [queue[0]] + Course(queue[1..] + Queues(queue[0]))
  }

  // ---- The report -------------------------------------------------------------------------

  function AsItem(v: Visit): Item {
    Item(v.path, [], if v.found.Some? then v.found.value else File(0))
  }

  function AsItems(visits: seq<Visit>): (r: seq<Item>)
    ensures |r| == |visits|
    ensures forall i :: 0 <= i < |visits| ==> r[i] == AsItem(visits[i])
  {
    seq(|visits|, i requires 0 <= i < |visits| => AsItem(visits[i]))
  }

  /** What stops a walk: a path that leads elsewhere, or a file whose chunks are refused. */
  predicate Stops(v: Visit, maxRead: nat) {
    Broken(v) || (v.found.value.File? && ChunkRefused(maxRead))
  }

  function Start(tree: Node, root: Text): Visit {
    var found := Find(tree, Where(root));
    var dir := Paths.NormalizeSmbPath(root);
    Visit(root, dir == [], found.Some? && found.value.Dir?, found, Find(tree, Where(dir)))
  }

  /** What the walk of `root` meets. */
  function Met(tree: Node, root: Text): seq<Visit> {
    Course([Start(tree, root)])
  }

  predicate Succeeds(visits: seq<Visit>, maxRead: nat) {
    forall i :: 0 <= i < |visits| ==> !Stops(visits[i], maxRead)
  }

  function Outcome(tree: Node, root: Text, maxRead: nat, cap: nat): Option<Summary> {
    if Succeeds(Met(tree, root), maxRead) then Some(Report(AsItems(Met(tree, root)), maxRead, cap)) else None
  }

  // ---- Paths lead where the walk is told --------------------------------------------------

  /** A visit is right about where its path leads and where those of its entries will. */
  ghost predicate Tracks(tree: Node, v: Visit) {
    && v.found == Find(tree, Where(v.path))
    && (Opens(v) ==>
          var dir := Paths.NormalizeSmbPath(v.path);
          && v.base == Find(tree, Where(dir))
          && Listable(v.found.value) && (v.base.Some? ==> Listable(v.base.value))
          && (v.top <==> dir == [])
          && Paths.StartsWithName(dir))
  }

  /** The path of an entry of a directory that the walk has opened. */
  lemma EntryTracked(tree: Node, v: Visit, k: nat)
    requires Tracks(tree, v) && Opens(v)
    requires k < |v.found.value.entries| && v.found.value.entries[k].Child?
    ensures Tracks(tree, ChildVisit(Paths.NormalizeSmbPath(v.path), v.top, v.base, v.found.value.entries[k]))
  {
    hide Paths.NormalizeSmbPath, Paths.Join, Paths.IsSpace, Paths.Effective, Paths.Segments, Paths.Clean, Paths.Blank,
      Paths.StartsWithName;
    var entries := v.found.value.entries;
    var e := entries[k];
    ListableEntry(entries, k);
    if Paths.Blank(e.name) {
      Paths.BlankReaches(v.path, e.name);
    } else {
      Paths.EntryReaches(v.path, e.name);
      var name := Paths.Effective(v.top, e.name);
      FindAppend(tree, Where(Paths.NormalizeSmbPath(v.path)), name);
      if v.base.Some? && v.base.value.Dir? && FindEntry(v.base.value.entries, name).Some? {
        ListableFound(v.base.value.entries, name);
      }
    }
  }

  lemma {:induction false} OffspringAppend(dir: Text, top: bool, base: Option<Node>, a: seq<Entry>, b: seq<Entry>)
    ensures Offspring(dir, top, base, a + b) == Offspring(dir, top, base, a) + Offspring(dir, top, base, b)
  {
    hide ChildVisit;
    if a == [] {
      assert a + b == b;
    } else {
      var first := if a[0].Child? then [ChildVisit(dir, top, base, a[0])] else [];
      assert (a + b)[1..] == a[1..] + b;
      assert Offspring(dir, top, base, a + b) == first + Offspring(dir, top, base, a[1..] + b);
      assert Offspring(dir, top, base, a) == first + Offspring(dir, top, base, a[1..]);
      OffspringAppend(dir, top, base, a[1..], b);
    }
  }

  // ---- The methods ------------------------------------------------------------------------

  datatype Queued = Queued(path: Text, isDirectory: bool)

  function AsQueued(visits: seq<Visit>): (r: seq<Queued>)
    ensures |r| == |visits|
    ensures forall i :: 0 <= i < |visits| ==> r[i] == Queued(visits[i].path, visits[i].listed)
  {
    seq(|visits|, i requires 0 <= i < |visits| => Queued(visits[i].path, visits[i].listed))
  }

  ghost predicate Represents(tree: Node, queue: seq<Queued>, visits: seq<Visit>) {
    queue == AsQueued(visits) && forall i :: 0 <= i < |visits| ==> Tracks(tree, visits[i])
  }

  /** What one more entry adds to the queue. */
  lemma EntryQueued(tree: Node, v: Visit, queue: seq<Queued>, visits: seq<Visit>, k: nat)
    requires Tracks(tree, v) && Opens(v) && k < |v.found.value.entries|
    requires var dir, entries := Paths.NormalizeSmbPath(v.path), v.found.value.entries;
      Represents(tree, queue, visits + Offspring(dir, v.top, v.base, entries[..k]))
    ensures var dir, entries := Paths.NormalizeSmbPath(v.path), v.found.value.entries;
      var e := Described(dir, entries[k]);
      && (IsSpecial(e.name) <==> !entries[k].Child?)
      && Represents(tree, if IsSpecial(e.name) then queue else queue + [Queued(e.path, e.isDirectory)],
                    visits + Offspring(dir, v.top, v.base, entries[..k + 1]))
  {
    hide Tracks, Represents, Paths.NormalizeSmbPath, Paths.Join, ChildVisit, Paths.Blank;
    var dir, entries := Paths.NormalizeSmbPath(v.path), v.found.value.entries;
    var before := visits + Offspring(dir, v.top, v.base, entries[..k]);
    OneMore(dir, v, k);
    if entries[k].Child? {
      EntryTracked(tree, v, k);
      TrackedListable(tree, v);
      ListableEntry(entries, k);
      RepresentsMore(tree, queue, before, ChildVisit(dir, v.top, v.base, entries[k]));
      ChildQueued(dir, v, entries[k]);
      assert before + [ChildVisit(dir, v.top, v.base, entries[k])]
          == visits + Offspring(dir, v.top, v.base, entries[..k + 1]);
    } else {
      assert Offspring(dir, v.top, v.base, entries[..k]) + [] == Offspring(dir, v.top, v.base, entries[..k]);
    }
  }

  lemma OneMore(dir: Text, v: Visit, k: nat)
    requires Opens(v) && k < |v.found.value.entries|
    ensures var entries := v.found.value.entries;
      Offspring(dir, v.top, v.base, entries[..k + 1]) == Offspring(dir, v.top, v.base, entries[..k])
        + (if entries[k].Child? then [ChildVisit(dir, v.top, v.base, entries[k])] else [])
  {
    hide ChildVisit;
    var entries := v.found.value.entries;
    assert entries[..k + 1] == entries[..k] + [entries[k]];
    OffspringAppend(dir, v.top, v.base, entries[..k], [entries[k]]);
    assert Offspring(dir, v.top, v.base, [entries[k]][1..]) == [];
  }

  lemma RepresentsMore(tree: Node, queue: seq<Queued>, visits: seq<Visit>, v: Visit)
    requires Represents(tree, queue, visits) && Tracks(tree, v)
    ensures Represents(tree, queue + [Queued(v.path, v.listed)], visits + [v])
  {
    hide Tracks;
    assert AsQueued(visits + [v]) == AsQueued(visits) + [Queued(v.path, v.listed)];
  }

  lemma ChildQueued(dir: Text, v: Visit, e: Entry)
    requires e.Child?
    ensures var child, d := ChildVisit(dir, v.top, v.base, e), Described(dir, e);
      child.path == d.path && child.listed == d.isDirectory && d.name == e.name
  {
    hide Paths.Join, Resolve;
  }

  lemma TrackedListable(tree: Node, v: Visit)
    requires Tracks(tree, v) && Opens(v)
    ensures ListableEntries(v.found.value.entries)
  {
  }

  /** The directory part of the walk: every child is queued, the handle is closed. */
  method QueueEntries(c: Connection, path: Text, queue: seq<Queued>, ghost v: Visit, ghost work: seq<Visit>)
    returns (longer: Option<seq<Queued>>)
    requires c.Valid() && path == v.path && v.listed && Tracks(c.root, v) && Represents(c.root, queue, work)
    modifies c
    ensures c.Valid() && c.files == old(c.files) && c.dirs == old(c.dirs)
    ensures longer.None? <==> Broken(v)
    ensures longer.Some? ==> Represents(c.root, longer.value, work + Queues(v))
  {
    hide Tracks, Represents, Paths.NormalizeSmbPath, Offspring;
    Leads(c.root, v);
    var answer := c.Opendir(path);
    if answer.None? {
      return None;
    }
    var handle := answer.value;
    var all := queue;
    ghost var dir, entries := Paths.NormalizeSmbPath(path), v.found.value.entries;
    ghost var k := 0;
    NoOffspring(dir, v.top, v.base, entries, work);
    assert entries[0..] == entries;
    while true
      invariant 0 <= k <= |entries|
      invariant c.Valid() && c.files == old(c.files)
      invariant c.dirs == old(c.dirs)[handle := Listing(dir, entries[k..])]
      invariant Represents(c.root, all, work + Offspring(dir, v.top, v.base, entries[..k]))
      decreases |entries| - k
    {
      var answer := c.Readdir(handle);
      if !answer.Next? {
        break;
      }
      var entry := answer.entry;
      EntryQueued(c.root, v, all, work, k);
      assert entries[k..][1..] == entries[k + 1..];
      k := k + 1;
      if IsSpecial(entry.name) {
        continue;
      }
      all := all + [Queued(entry.path, entry.isDirectory)];
    }
    assert entries[..k] == entries;
    c.Closedir(handle);
    assert c.dirs == old(c.dirs);
    longer := Some(all);
  }

  lemma NoOffspring(dir: Text, top: bool, base: Option<Node>, entries: seq<Entry>, work: seq<Visit>)
    ensures work + Offspring(dir, top, base, entries[..0]) == work
  {
  }

  lemma Leads(tree: Node, v: Visit)
    requires Tracks(tree, v)
    ensures Find(tree, Where(v.path)) == v.found
  {
  }

  /** walkAndRead; None stands for a rejected promise.  `visited` records what is shifted off the
      queue: everything the walk meets, in order, or the first of it if the walk fails. */
  method WalkAndRead(c: Connection, root: Text) returns (r: Option<Summary>, ghost visited: seq<Queued>)
    requires c.Valid()
    requires Walkable(c.root, root)
    modifies c
    ensures c.Valid() && c.files == old(c.files) && c.dirs == old(c.dirs)
    ensures r == Outcome(c.root, root, c.maxRead, c.cap)
    ensures visited <= AsQueued(Met(c.root, root))
    ensures r.Some? ==> visited == AsQueued(Met(c.root, root))
  {
    hide Tracks, Represents, Report, Course, Queues, QueueCost, Got, Paths.NormalizeSmbPath, Succeeds,
      Listable, Stops, Broken, AsItems;
    visited := [];
    var rootStat := c.Stat(root);
    ghost var all := Met(c.root, root);
    ghost var seen, work := [], [Start(c.root, root)];
    if rootStat.None? {
      MissingRoot(c.root, root, c.maxRead);
      r := None;
      return;
    }
    StartRepresents(c.root, root);
    NothingReported(c.maxRead, c.cap);
    var queue := [Queued(root, rootStat.value)];
    var filesRead, directoriesVisited, totalBytesRead, sampleFiles := 0, 0, 0, [];
    assert seen + Course(work) == all;
    while |queue| > 0
      invariant c.Valid() && c.files == old(c.files) && c.dirs == old(c.dirs)
      invariant Represents(c.root, queue, work)
      invariant seen + Course(work) == all && visited == AsQueued(seen)
      invariant Summary(filesRead, directoriesVisited, totalBytesRead, sampleFiles)
             == Report(AsItems(seen), c.maxRead, c.cap)
      invariant Succeeds(seen, c.maxRead)
      decreases QueueCost(work)
    {
      HeadRepresents(c.root, queue, work);
      var current := queue[0];
      queue := queue[1..];
      ghost var v := work[0];
      visited := visited + [current];
      assert visited == AsQueued(seen + [v]);
      CourseShrinks(work);
      CourseStep(seen, work);
      if !current.isDirectory {
        Leads(c.root, v);
        UnlistedBreaks(v);
        FileStops(v, c.maxRead);
        var bytes := ReadWholeFile(c, current.path);
        if bytes.None? {
          StoppedHere(seen, v, Course(work[1..] + Queues(v)), c.maxRead);
          r := None;
          return;
        }
        VisitReported(seen, v, c.maxRead, c.cap);
        filesRead := filesRead + 1;
        totalBytesRead := totalBytesRead + bytes.value;
        if |sampleFiles| < SAMPLE_COUNT {
          sampleFiles := sampleFiles + [Sample(current.path, bytes.value)];
        }
      } else {
        directoriesVisited := directoriesVisited + 1;
        var longer := QueueEntries(c, current.path, queue, v, work[1..]);
        DirectoryStops(v, c.maxRead);
        if longer.None? {
          StoppedHere(seen, v, Course(work[1..] + Queues(v)), c.maxRead);
          r := None;
          return;
        }
        VisitReported(seen, v, c.maxRead, c.cap);
        queue := longer.value;
      }
      StillSucceeds(seen, v, c.maxRead);
      seen, work := seen + [v], work[1..] + Queues(v);
    }
    Exhausted(c.root, queue, work);
    assert seen == all;
    r := Some(Summary(filesRead, directoriesVisited, totalBytesRead, sampleFiles));
  }

  /** What the walk is given: if the root is a directory, no directory on the way to it, in it, or
      where the paths of its entries lead has a blank name. */
  predicate Walkable(tree: Node, root: Text) {
    var v := Start(tree, root);
    v.listed ==>
      && Listable(v.found.value)
      && (v.base.Some? ==> Listable(v.base.value))
      && (Where(root) != [] ==> !Paths.Blank(Where(root)[0]))
  }

  // ---- The steps of the walk --------------------------------------------------------------

  lemma MissingRoot(tree: Node, root: Text, maxRead: nat)
    requires Find(tree, Where(root)).None?
    ensures !Succeeds(Met(tree, root), maxRead)
  {
    assert Met(tree, root)[0] == Start(tree, root);
    assert Stops(Met(tree, root)[0], maxRead);
  }

  lemma StartRepresents(tree: Node, root: Text)
    requires Walkable(tree, root) && Find(tree, Where(root)).Some?
    ensures Represents(tree, [Queued(root, Find(tree, Where(root)).value.Dir?)], [Start(tree, root)])
  {
    hide Paths.NormalizeSmbPath, Paths.Blank, Paths.StartsWithName, Listable;
    if Find(tree, Where(root)).value.Dir? {
      Paths.NamedStart(root);
    }
  }

  lemma NothingReported(maxRead: nat, cap: nat)
    ensures Report(AsItems([]), maxRead, cap) == Summary(0, 0, 0, []) && Succeeds([], maxRead)
  {
    ReportNothing(maxRead, cap);
  }

  lemma HeadRepresents(tree: Node, queue: seq<Queued>, visits: seq<Visit>)
    requires Represents(tree, queue, visits) && |queue| > 0
    ensures |visits| > 0
    ensures queue[0] == Queued(visits[0].path, visits[0].listed) && Tracks(tree, visits[0])
    ensures Represents(tree, queue[1..], visits[1..])
    ensures !visits[0].listed ==> Queues(visits[0]) == [] && visits[1..] + Queues(visits[0]) == visits[1..]
  {
    hide Tracks;
  }

  lemma Exhausted(tree: Node, queue: seq<Queued>, visits: seq<Visit>)
    requires Represents(tree, queue, visits) && |queue| == 0
    ensures visits == [] && Course(visits) == []
  {
  }

  lemma CourseStep(seen: seq<Visit>, work: seq<Visit>)
    requires work != []
    ensures seen + Course(work) == seen + [work[0]] + Course(work[1..] + Queues(work[0]))
  {
  }

  lemma VisitReported(seen: seq<Visit>, v: Visit, maxRead: nat, cap: nat)
    requires !Broken(v)
    ensures var before, after := Report(AsItems(seen), maxRead, cap), Report(AsItems(seen + [v]), maxRead, cap);
      var node := v.found.value;
      after == if !v.listed
        then Summary(before.filesRead + 1, before.directoriesVisited,
          before.totalBytesRead + Got(node.size, maxRead, cap),
          if |before.sampleFiles| < SAMPLE_COUNT
          then before.sampleFiles + [Sample(v.path, Got(node.size, maxRead, cap))]
          else before.sampleFiles)
        else before.(directoriesVisited := before.directoriesVisited + 1)
  {
    hide Report, Got;
    assert AsItems(seen + [v]) == AsItems(seen) + [AsItem(v)];
    ReportStep(AsItems(seen), AsItem(v), maxRead, cap);
  }

  lemma UnlistedBreaks(v: Visit)
    requires !v.listed
    ensures Broken(v) <==> v.found.None? || v.found.value.Dir?
  {
  }

  lemma FileStops(v: Visit, maxRead: nat)
    requires !v.listed
    ensures Stops(v, maxRead) <==> Broken(v) || ChunkRefused(maxRead)
  {
  }

  lemma DirectoryStops(v: Visit, maxRead: nat)
    requires v.listed
    ensures Stops(v, maxRead) <==> Broken(v)
  {
  }

  lemma StoppedHere(seen: seq<Visit>, v: Visit, rest: seq<Visit>, maxRead: nat)
    requires Stops(v, maxRead)
    ensures !Succeeds(seen + [v] + rest, maxRead)
  {
    assert (seen + [v] + rest)[|seen|] == v;
  }

  lemma StillSucceeds(seen: seq<Visit>, v: Visit, maxRead: nat)
    requires Succeeds(seen, maxRead) && !Stops(v, maxRead)
    ensures Succeeds(seen + [v], maxRead)
  {
  }

  // ---- Where all names are safe -----------------------------------------------------------

  function AsVisit(item: Item): Visit {
    Visit(item.path, item.loc == [], item.node.Dir?, Some(item.node), Some(item.node))
  }

  function AsVisits(items: seq<Item>): (r: seq<Visit>)
    ensures |r| == |items|
    ensures forall i :: 0 <= i < |items| ==> r[i] == AsVisit(items[i])
  {
    seq(|items|, i requires 0 <= i < |items| => AsVisit(items[i]))
  }

  predicate AllWellNamed(items: seq<Item>) {
    forall i :: 0 <= i < |items| ==> WellNamed(items[i].loc == [], items[i].node)
  }

  /** A good name is looked up as it is. */
  lemma GoodResolves(top: bool, entries: seq<Entry>, k: nat)
    requires WellNamedEntries(top, entries) && k < |entries| && entries[k].Child?
    ensures Resolve(top, Some(Dir(entries)), entries[k].name, entries[k].node.Dir?) == Some(entries[k].node)
    ensures WellNamed(false, entries[k].node)
  {
    hide Paths.IsSpace, Paths.Clean, Paths.Effective;
    var name := entries[k].name;
    EntryFound(top, entries, k);
    NamesAreNotEmpty(name);
    Paths.SafeIsEffective(if top then [] else [BACKSLASH], name);
    Paths.BlankLeavesNothing(top, name);
  }

  lemma NamesAreNotEmpty(name: Text)
    requires Paths.Clean(name)
    ensures name != []
  {
  }

  lemma {:induction false} ChildrenAgree(dir: Text, loc: seq<Text>, all: seq<Entry>, k: nat)
    requires WellNamedEntries(loc == [], all) && k <= |all|
    ensures Offspring(dir, loc == [], Some(Dir(all)), all[k..]) == AsVisits(Children(dir, loc, all[k..]))
    ensures AllWellNamed(Children(dir, loc, all[k..]))
    decreases |all| - k
  {
    hide Paths.Join, Resolve, WellNamed, WellNamedEntries;
    if k < |all| {
      var e, rest := all[k], all[k..];
      assert rest[1..] == all[k + 1..];
      ChildrenAgree(dir, loc, all, k + 1);
      var others := Children(dir, loc, rest[1..]);
      if e.Child? {
        GoodResolves(loc == [], all, k);
        var first := Item(Paths.Join(dir, e.name), loc + [e.name], e.node);
        assert Children(dir, loc, rest) == [first] + others;
        assert Offspring(dir, loc == [], Some(Dir(all)), rest) == [AsVisit(first)] + AsVisits(others);
      } else {
        assert Children(dir, loc, rest) == others;
        assert Offspring(dir, loc == [], Some(Dir(all)), rest) == AsVisits(others);
      }
    }
  }

  lemma KidsAgree(item: Item)
    requires WellNamed(item.loc == [], item.node)
    ensures Queues(AsVisit(item)) == AsVisits(Kids(item)) && AllWellNamed(Kids(item))
  {
    hide Paths.NormalizeSmbPath, Offspring, Children;
    if item.node.Dir? {
      var entries := item.node.entries;
      assert entries[0..] == entries && Dir(entries) == item.node;
      ChildrenAgree(Paths.NormalizeSmbPath(item.path), item.loc, entries, 0);
    }
  }

  lemma {:induction false} CourseIsBfs(queue: seq<Item>)
    requires AllWellNamed(queue)
    ensures Course(AsVisits(queue)) == AsVisits(Bfs(queue))
    decreases Weight(queue)
  {
    hide WellNamed, Kids, Queues, QueueCost, AsVisit, AsVisits;
    if queue == [] {
      NothingAgrees();
    } else {
      var item, rest := queue[0], queue[1..];
      QueueShrinks(queue);
      KidsAgree(item);
      AllNamedStep(queue, Kids(item));
      CourseIsBfs(rest + Kids(item));
      VisitsCons(item, rest);
      assert queue == [item] + rest;
      VisitsAppend(rest, Kids(item));
      VisitsCons(item, Bfs(rest + Kids(item)));
    }
  }

  lemma NothingAgrees()
    ensures AsVisits([]) == []
  {
  }

  lemma AllNamedStep(queue: seq<Item>, more: seq<Item>)
    requires queue != [] && AllWellNamed(queue) && AllWellNamed(more)
    ensures AllWellNamed(queue[1..] + more)
  {
    hide WellNamed;
  }

  lemma VisitsCons(item: Item, rest: seq<Item>)
    ensures AsVisits([item] + rest) == [AsVisit(item)] + AsVisits(rest)
    ensures AsVisits([item] + rest)[1..] == AsVisits(rest)
  {
    hide AsVisit, AsVisits;
    VisitsAppend([item], rest);
    VisitsOne(item);
  }

  lemma VisitsOne(item: Item)
    ensures AsVisits([item]) == [AsVisit(item)]
  {
    hide AsVisit;
  }

  lemma VisitsAppend(a: seq<Item>, b: seq<Item>)
    ensures AsVisits(a + b) == AsVisits(a) + AsVisits(b)
  {
    hide AsVisit;
  }

  /** The report does not say where a node lies. */
  lemma {:induction false} ReportAgrees(items: seq<Item>, maxRead: nat, cap: nat)
    ensures Report(AsItems(AsVisits(items)), maxRead, cap) == Report(items, maxRead, cap)
  {
    hide Report, Got;
    if items == [] {
      assert AsItems(AsVisits(items)) == items;
    } else {
      var front, last := items[..|items| - 1], items[|items| - 1];
      ReportAgrees(front, maxRead, cap);
      assert items == front + [last];
      assert AsItems(AsVisits(items)) == AsItems(AsVisits(front)) + [AsItem(AsVisit(last))];
      ReportStep(front, last, maxRead, cap);
      ReportStep(AsItems(AsVisits(front)), AsItem(AsVisit(last)), maxRead, cap);
    }
  }

  lemma {:induction false} SuccessAgrees(items: seq<Item>, maxRead: nat)
    ensures Succeeds(AsVisits(items), maxRead) <==> !(ChunkRefused(maxRead) && FilesOf(items) != [])
  {
    hide ChunkRefused;
    if items == [] {
    } else {
      var front, last := items[..|items| - 1], items[|items| - 1];
      SuccessAgrees(front, maxRead);
      assert items == front + [last];
      FilesStep(front, last);
      assert AsVisits(items) == AsVisits(front) + [AsVisit(last)];
      assert Stops(AsVisit(last), maxRead) <==> last.node.File? && ChunkRefused(maxRead);
      if Stops(AsVisit(last), maxRead) {
        StoppedHere(AsVisits(front), AsVisit(last), [], maxRead);
        assert AsVisits(front) + [AsVisit(last)] + [] == AsVisits(items);
      } else {
        SucceedsBy(AsVisits(front), AsVisit(last), maxRead);
      }
    }
  }

  lemma SucceedsBy(seen: seq<Visit>, v: Visit, maxRead: nat)
    requires !Stops(v, maxRead)
    ensures Succeeds(seen + [v], maxRead) <==> Succeeds(seen, maxRead)
  {
    hide Stops;
    var all := seen + [v];
    assert forall i :: 0 <= i < |seen| ==> all[i] == seen[i];
  }

  /** Where all names below the root are good, and normalising the root's normal form again does not
      change it, the walk meets the nodes of the tree in the order of `Visits`, and reports what
      `Walked` does. */
  lemma WellNamedWalk(tree: Node, root: Text, maxRead: nat, cap: nat)
    requires var dir := Paths.NormalizeSmbPath(root); dir == [] || !Paths.IsSpace(dir[0])
    requires Find(tree, Where(root)).Some? ==> WellNamed(Where(root) == [], Find(tree, Where(root)).value)
    ensures Find(tree, Where(root)).Some? ==> Met(tree, root) == AsVisits(Visits(tree, root))
    ensures Outcome(tree, root, maxRead, cap) == Walked(tree, root, maxRead, cap)
  {
    hide Report, Bfs, Course, WellNamed, Succeeds, ChunkRefused, Paths.NormalizeSmbPath, Paths.IsSpace;
    var found := Find(tree, Where(root));
    if found.None? {
      MissingRoot(tree, root, maxRead);
    } else {
      var item := Item(root, Where(root), found.value);
      CourseIsBfs([item]);
      StartIsStraight(root);
      assert AsVisits([item]) == [Start(tree, root)];
      RootVisits(tree, root);
      ReportAgrees(Visits(tree, root), maxRead, cap);
      SuccessAgrees(Visits(tree, root), maxRead);
    }
  }

  lemma StartIsStraight(root: Text)
    requires var dir := Paths.NormalizeSmbPath(root); dir == [] || !Paths.IsSpace(dir[0])
    ensures var dir := Paths.NormalizeSmbPath(root); Where(dir) == Where(root) && (dir == [] <==> Where(root) == [])
  {
    Paths.NormalizeTwice(root);
    Paths.NormalizedShape(root);
    hide Paths.NormalizeSmbPath, Paths.IsSpace;
    Paths.NotEmpty(Paths.NormalizeSmbPath(root));
  }

  /** A well named tree is one that a server may list. */
  lemma {:induction false} WellNamedIsListable(top: bool, node: Node)
    requires WellNamed(top, node)
    ensures Listable(node)
    decreases node
  {
    if node.Dir? {
      WellNamedAreListable(top, node.entries);
    }
  }

  lemma {:induction false} WellNamedAreListable(top: bool, entries: seq<Entry>)
    requires WellNamedEntries(top, entries)
    ensures ListableEntries(entries)
    decreases entries
  {
    if entries != [] {
      WellNamedAreListable(top, entries[1..]);
      if entries[0].Child? {
        WellNamedIsListable(false, entries[0].node);
      }
    }
  }

  // ---- Names that differ in trailing white space ------------------------------------------

  /** Two names that differ in trailing white space lead to the same entry. */
  lemma NameIsShadowed(top: bool, base: Option<Node>, name: Text, tail: Text, isDirectory: bool)
    requires Paths.Blank(tail) && !Paths.Blank(name)
    ensures Resolve(top, base, name + tail, isDirectory) == Resolve(top, base, name, isDirectory)
  {
    hide Paths.Blank, Paths.Effective;
    Paths.TailIsTrimmed(top, name, tail);
  }

  function Twins(name: Text, tail: Text, m: nat, n: nat): Node {
    Dir([Child(name, File(m)), Child(name + tail, File(n))])
  }

  /** With two such files at the top of a share, the walk reads the one twice and the other never, and
      reports the size of the one for both. */
  lemma TwinIsNotRead(name: Text, tail: Text, m: nat, n: nat, maxRead: nat, cap: nat)
    requires Paths.Clean(name) && !IsSpecial(name)
    requires !Paths.IsSpace(name[0]) && !Paths.IsSpace(name[|name| - 1])
    requires tail != [] && Paths.Blank(tail) && (maxRead == 0 || maxRead >= 65536)
    ensures Find(Twins(name, tail, m, n), [name + tail]) == Some(File(n)) && Walkable(Twins(name, tail, m, n), [])
    ensures var got := Got(m, maxRead, cap);
      Outcome(Twins(name, tail, m, n), [], maxRead, cap)
      == Some(Summary(2, 1, got + got, [Sample(name, got), Sample(name + tail, got)]))
  {
    hide Paths.IsSpace, Paths.Blank, Paths.Clean, Report, Got, Course, Queues, Succeeds, Walkable, Start;
    var tree := Twins(name, tail, m, n);
    TwinsFound(name, tail, m, n);
    TwinsQueued(name, tail, m, n);
    var start, a, b := Start(tree, []), FileVisit(name, m), FileVisit(name + tail, m);
    FilesEnd(start, a, b);
    TwinsReported(start, a, b, maxRead, cap);
    TwinsSucceed(start, a, b, maxRead);
  }

  function FileVisit(path: Text, size: nat): Visit {
    Visit(path, false, false, Some(File(size)), Some(File(size)))
  }

  lemma TopOfShare(tree: Node)
    ensures Where([]) == [] && Start(tree, []) == Visit([], true, tree.Dir?, Some(tree), Some(tree))
  {
  }

  lemma TwinsNamed(name: Text, tail: Text)
    requires Paths.Clean(name) && !Paths.IsSpace(name[|name| - 1]) && tail != [] && Paths.Blank(tail)
    ensures Paths.Clean(name + tail) && !IsSpecial(name + tail) && !Paths.Blank(name) && name + tail != name
  {
    var both := name + tail;
    assert both[|both| - 1] == tail[|tail| - 1];
    assert Paths.IsSpace(tail[|tail| - 1]) && forall i :: 0 <= i < |tail| ==> !Paths.IsSeparator(tail[i]);
    assert !Paths.IsSpace(0x2E);
    hide Paths.IsSpace, Paths.IsSeparator;
  }

  lemma TwinsFound(name: Text, tail: Text, m: nat, n: nat)
    requires Paths.Clean(name) && !IsSpecial(name) && !Paths.IsSpace(name[|name| - 1])
    requires tail != [] && Paths.Blank(tail)
    ensures Find(Twins(name, tail, m, n), [name + tail]) == Some(File(n)) && Walkable(Twins(name, tail, m, n), [])
  {
    TwinsNamed(name, tail);
    TopOfShare(Twins(name, tail, m, n));
    hide Paths.IsSpace, Paths.Blank, Paths.Clean, IsSpecial, Start;
    var entries := [Child(name, File(m)), Child(name + tail, File(n))];
    assert entries[1..] == [Child(name + tail, File(n))] && entries[1..][1..] == [];
    assert FindEntry(entries, name + tail) == FindEntry(entries[1..], name + tail) == Some(File(n));
    assert [name + tail][1..] == [];
    assert Listable(File(m)) && Listable(File(n));
    assert ListableEntries(entries[1..][1..]) && ListableEntries(entries[1..]) && ListableEntries(entries);
    assert Listable(Twins(name, tail, m, n));
  }

  lemma TwinsQueued(name: Text, tail: Text, m: nat, n: nat)
    requires Paths.Clean(name) && !Paths.IsSpace(name[0]) && !Paths.IsSpace(name[|name| - 1])
    requires tail != [] && Paths.Blank(tail)
    ensures Start(Twins(name, tail, m, n), []).listed && Start(Twins(name, tail, m, n), []).path == []
    ensures Start(Twins(name, tail, m, n), []).found == Some(Twins(name, tail, m, n))
    ensures Queues(Start(Twins(name, tail, m, n), [])) == [FileVisit(name, m), FileVisit(name + tail, m)]
  {
    TwinsNamed(name, tail);
    var tree := Twins(name, tail, m, n);
    TopOfShare(tree);
    assert Paths.NormalizeSmbPath([]) == [];
    Paths.SafeIsEffective([], name);
    hide Paths.IsSpace, Paths.Blank, Paths.Clean, Paths.Effective, Start, Paths.NormalizeSmbPath;
    NameIsShadowed(true, Some(tree), name, tail, false);
    assert FindEntry(tree.entries, name) == Some(File(m));
    hide Resolve, FindEntry;
    var entries := tree.entries;
    assert entries[1..] == [Child(name + tail, File(n))] && entries[1..][1..] == [];
    assert ChildVisit([], true, Some(tree), entries[0]) == FileVisit(name, m);
    assert ChildVisit([], true, Some(tree), entries[1]) == FileVisit(name + tail, m);
    hide ChildVisit;
    assert Offspring([], true, Some(tree), []) == [];
    assert Offspring([], true, Some(tree), entries[1..]) == [FileVisit(name + tail, m)];
    assert Offspring([], true, Some(tree), entries) == [FileVisit(name, m)] + [FileVisit(name + tail, m)];
  }

  lemma FilesEnd(start: Visit, a: Visit, b: Visit)
    requires Queues(start) == [a, b] && !a.listed && !b.listed
    ensures Course([start]) == [start] + [a] + [b]
  {
    assert Queues(a) == [] && Queues(b) == [];
    hide Queues, QueueCost;
    assert [start][1..] + [a, b] == [a, b];
    assert [a, b][1..] + [] == [b] && [b][1..] + [] == [];
    CourseShrinks([start]);
    CourseShrinks([a, b]);
    CourseShrinks([b]);
    assert Course([]) == [];
    assert Course([b]) == [b] + Course([]);
    assert Course([a, b]) == [a] + Course([b]);
    assert Course([start]) == [start] + Course([a, b]);
  }

  lemma TwinsReported(start: Visit, a: Visit, b: Visit, maxRead: nat, cap: nat)
    requires start.listed && !Broken(start) && !a.listed && !Broken(a) && !b.listed && !Broken(b)
    ensures var x, y := Got(a.found.value.size, maxRead, cap), Got(b.found.value.size, maxRead, cap);
      Report(AsItems([start] + [a] + [b]), maxRead, cap) == Summary(2, 1, x + y, [Sample(a.path, x), Sample(b.path, y)])
  {
    hide Report, Got, AsItems, Broken;
    NothingReported(maxRead, cap);
    assert [] + [start] == [start];
    VisitReported([], start, maxRead, cap);
    UnbrokenFile(a);
    UnbrokenFile(b);
    VisitReported([start], a, maxRead, cap);
    VisitReported([start] + [a], b, maxRead, cap);
  }

  lemma UnbrokenFile(v: Visit)
    requires !v.listed && !Broken(v)
    ensures v.found.Some? && v.found.value.File?
  {
  }

  lemma TwinsSucceed(start: Visit, a: Visit, b: Visit, maxRead: nat)
    requires start.listed && !Broken(start) && !a.listed && !Broken(a) && !b.listed && !Broken(b)
    requires !ChunkRefused(maxRead)
    ensures Succeeds([start] + [a] + [b], maxRead)
  {
  }
}
