/**
 The read-only walk: `readWholeFile` and `walkAndRead`, against a server that holds a finite
 directory tree.

 The server is honest about names and sizes.  Two numbers describe the rest: `maxRead`, the
 read size it announces (0 for none; the binding refuses longer reads), and `cap`, the most
 bytes it returns for one read.
 */
module Walk {
  import opened Options
  import opened Texts
  import Paths

  // ---- Trees ------------------------------------------------------------------------------

  datatype Node = File(size: nat) | Dir(entries: seq<Entry>)

  /** What a directory lists: itself, its parent and its children. */
  datatype Entry = Self | Parent | Child(name: Text, node: Node)

  const DOT: Text := [0x2E]
  const DOT_DOT: Text := [0x2E, 0x2E]

  function NameOf(e: Entry): Text {
    match e
    case Self => DOT
    case Parent => DOT_DOT
    case Child(name, _) => name
  }

  predicate IsSpecial(name: Text) {
    name == DOT || name == DOT_DOT
  }

  /** Where a path leads, as a list of names. */
  function Where(path: Text): seq<Text> {
    Paths.Segments(Paths.NormalizeSmbPath(path))
  }

  function FindEntry(entries: seq<Entry>, name: Text): (r: Option<Node>)
    ensures r.Some? ==> exists e :: e in entries && e.Child? && e.name == name && e.node == r.value
  {
    if entries == [] then None
    else if entries[0].Child? && entries[0].name == name then Some(entries[0].node)
    else FindEntry(entries[1..], name)
  }

  function Find(node: Node, loc: seq<Text>): Option<Node> {
    if loc == [] then Some(node)
    else if node.File? || FindEntry(node.entries, loc[0]).None? then None
    else Find(FindEntry(node.entries, loc[0]).value, loc[1..])
  }

  /** A name the wrapper's normalisation leaves alone; at the top of the share a leading white
      space would be trimmed too. */
  predicate GoodName(top: bool, name: Text) {
    && Paths.Clean(name)
    && !IsSpecial(name)
    && !Paths.IsSpace(name[|name| - 1])
    && (top ==> !Paths.IsSpace(name[0]))
  }

  /** Every name below a node is good, and siblings have different names. */
  predicate WellNamed(top: bool, node: Node)
    decreases node
  {
    node.Dir? ==> WellNamedEntries(top, node.entries)
  }

  predicate WellNamedEntries(top: bool, entries: seq<Entry>)
    decreases entries
  {
    entries != [] ==>
      && (entries[0].Child? ==>
            && GoodName(top, entries[0].name)
            && WellNamed(false, entries[0].node)
            && FindEntry(entries[1..], entries[0].name).None?)
      && WellNamedEntries(top, entries[1..])
  }

  // ---- The connection ---------------------------------------------------------------------

  datatype DirEntry = DirEntry(path: Text, name: Text, isDirectory: bool)

  datatype Listing = Listing(path: Text, rest: seq<Entry>)

  datatype ReaddirResult = Refused | End | Next(entry: DirEntry)

  function Min(a: nat, b: nat): nat {
    if a < b then a else b
  }

  function Served(size: nat, offset: nat, length: nat, cap: nat): nat {
    if offset >= size then 0 else Min(Min(length, cap), size - offset)
  }

  /** A connected wrapper and the server behind it. */
  class Connection {
    const root: Node
    const maxRead: nat
    const cap: nat
    var files: map<nat, nat>      // open file handles, and the sizes of their files
    var dirs: map<nat, Listing>   // open directory handles
    var nextFile: nat
    var nextDir: nat

    ghost predicate Valid()
      reads this
    {
      (forall h :: h in files ==> h < nextFile) && (forall h :: h in dirs ==> h < nextDir)
    }

    constructor (root: Node, maxRead: nat, cap: nat)
      ensures Valid() && files == map[] && dirs == map[]
      ensures this.root == root && this.maxRead == maxRead && this.cap == cap
    {
      this.root, this.maxRead, this.cap := root, maxRead, cap;
      files, dirs, nextFile, nextDir := map[], map[], 1, 1;
    }

    /** Whether there is anything at a path, and if so, a directory. */
    method Stat(path: Text) returns (isDirectory: Option<bool>)
      ensures isDirectory == match Find(root, Where(path)) case None => None case Some(node) => Some(node.Dir?)
    {
      var found := Find(root, Where(path));
      isDirectory := if found.None? then None else Some(found.value.Dir?);
    }

    method Open(path: Text) returns (handle: Option<nat>)
      requires Valid()
      modifies this`files, this`nextFile
      ensures Valid()
      ensures var found := Find(root, Where(path));
        if found.Some? && found.value.File?
        then handle.Some? && handle.value !in old(files) && files == old(files)[handle.value := found.value.size]
        else handle.None? && files == old(files)
    {
      var found := Find(root, Where(path));
      if found.None? || found.value.Dir? {
        return None;
      }
      handle := Some(nextFile);
      files := files[nextFile := found.value.size];
      nextFile := nextFile + 1;
    }

    /** How many bytes a read returns, if it is not refused. */
    method Read(handle: nat, offset: nat, length: nat) returns (bytes: Option<nat>)
      ensures bytes == if handle !in files || (maxRead != 0 && length > maxRead) then None
                       else Some(Served(files[handle], offset, length, cap))
    {
      if handle !in files || (maxRead != 0 && length > maxRead) {
        return None;
      }
      bytes := Some(Served(files[handle], offset, length, cap));
    }

    method Close(handle: nat)
      requires Valid()
      modifies this`files
      ensures Valid() && files == old(files) - {handle}
    {
      files := files - {handle};
    }

    method Opendir(path: Text) returns (handle: Option<nat>)
      requires Valid()
      modifies this`dirs, this`nextDir
      ensures Valid()
      ensures var found := Find(root, Where(path));
        if found.Some? && found.value.Dir?
        then handle.Some? && handle.value !in old(dirs)
             && dirs == old(dirs)[handle.value := Listing(Paths.NormalizeSmbPath(path), found.value.entries)]
        else handle.None? && dirs == old(dirs)
    {
      var found := Find(root, Where(path));
      if found.None? || found.value.File? {
        return None;
      }
      handle := Some(nextDir);
      dirs := dirs[nextDir := Listing(Paths.NormalizeSmbPath(path), found.value.entries)];
      nextDir := nextDir + 1;
    }

    method Readdir(handle: nat) returns (r: ReaddirResult)
      requires Valid()
      modifies this`dirs
      ensures Valid()
      ensures handle !in old(dirs) ==> r == Refused && dirs == old(dirs)
      ensures handle in old(dirs) && old(dirs)[handle].rest == [] ==> r == End && dirs == old(dirs)
      ensures handle in old(dirs) && old(dirs)[handle].rest != [] ==>
        var l := old(dirs)[handle];
        && r == Next(Described(l.path, l.rest[0]))
        && dirs == old(dirs)[handle := Listing(l.path, l.rest[1..])]
    {
      if handle !in dirs {
        return Refused;
      }
      var l := dirs[handle];
      if l.rest == [] {
        return End;
      }
      dirs := dirs[handle := Listing(l.path, l.rest[1..])];
      return Next(Described(l.path, l.rest[0]));
    }

    method Closedir(handle: nat)
      requires Valid()
      modifies this`dirs
      ensures Valid() && dirs == old(dirs) - {handle}
    {
      dirs := dirs - {handle};
    }
  }

  /** The native layer gives every entry its full path. */
  function Described(dir: Text, e: Entry): DirEntry {
    DirEntry(Paths.Join(dir, NameOf(e)), NameOf(e), if e.Child? then e.node.Dir? else true)
  }

  // ---- One file ---------------------------------------------------------------------------

  const MIN_CHUNK: nat := 0x1_0000

  function ChunkSize(maxRead: nat): nat {
    if maxRead > MIN_CHUNK then maxRead else MIN_CHUNK
  }

  /** The binding refuses reads longer than the size the server announced. */
  predicate ChunkRefused(maxRead: nat) {
    0 < maxRead < MIN_CHUNK
  }

  /** The bytes the chunk loop gets out of a file: everything, unless the server cuts a chunk
      short, which the loop takes for the end of the file. */
  function Got(size: nat, maxRead: nat, cap: nat): nat {
    if cap < ChunkSize(maxRead) then Min(cap, size) else size
  }

  /** readWholeFile; None stands for a rejected promise. */
  method ReadWholeFile(c: Connection, path: Text) returns (r: Option<nat>)
    requires c.Valid()
    modifies c
    ensures c.Valid() && c.files == old(c.files) && c.dirs == old(c.dirs)
    ensures var found := Find(c.root, Where(path));
      r == if found.None? || found.value.Dir? || 0 < c.maxRead < 65536 then None
           else Some(Got(found.value.size, c.maxRead, c.cap))
  {
    var answer := c.Open(path);
    if answer.None? {
      return None;
    }
    var handle := answer.value;
    var chunkSize := ChunkSize(c.maxRead);
    var bytesRead, offset := 0, 0;
    var failed := false;
    ghost var size := c.files[handle];
    while true
      invariant handle in c.files && c.files[handle] == size
      invariant c.files == old(c.files)[handle := size] && c.dirs == old(c.dirs) && c.Valid()
      invariant offset == bytesRead <= size
      invariant bytesRead > 0 ==> chunkSize <= c.cap && !ChunkRefused(c.maxRead)
      decreases size - bytesRead
    {
      var chunk := c.Read(handle, offset, chunkSize);
      if chunk.None? {
        failed := true;
        break;
      }
      if chunk.value == 0 {
        break;
      }
      bytesRead := bytesRead + chunk.value;
      offset := offset + chunk.value;
      if chunk.value < chunkSize {
        break;
      }
    }
    c.Close(handle);
    assert c.files == old(c.files);
    r := if failed then None else Some(bytesRead);
  }

  // ---- The walk, as a list of visits ------------------------------------------------------

  /** A node on its way through the queue: the path the walk has for it, and where it is. */
  datatype Item = Item(path: Text, loc: seq<Text>, node: Node)

  function Children(dir: Text, loc: seq<Text>, entries: seq<Entry>): seq<Item> {
    if entries == [] then []
    else
      (if entries[0].Child?
       then [Item(Paths.Join(dir, entries[0].name), loc + [entries[0].name], entries[0].node)]
       else [])
      + Children(dir, loc, entries[1..])
  }

  function Kids(item: Item): seq<Item> {
    match item.node
    case File(_) => []
    case Dir(entries) => Children(Paths.NormalizeSmbPath(item.path), item.loc, entries)
  }

  function NodeCount(node: Node): (n: nat)
    ensures n > 0
    decreases node
  {
    match node
    case File(_) => 1
    case Dir(entries) => 1 + EntriesCount(entries)
  }

  function EntriesCount(entries: seq<Entry>): nat
    decreases entries
  {
    if entries == [] then 0
    else (if entries[0].Child? then NodeCount(entries[0].node) else 0) + EntriesCount(entries[1..])
  }

  function Weight(items: seq<Item>): nat {
    if items == [] then 0 else NodeCount(items[0].node) + Weight(items[1..])
  }

  lemma {:induction false} WeightAppend(a: seq<Item>, b: seq<Item>)
    ensures Weight(a + b) == Weight(a) + Weight(b)
  {
    if a == [] {
      assert a + b == b;
    } else {
      assert (a + b)[1..] == a[1..] + b;
      WeightAppend(a[1..], b);
    }
  }

  lemma {:induction false} ChildrenWeight(dir: Text, loc: seq<Text>, entries: seq<Entry>)
    ensures Weight(Children(dir, loc, entries)) == EntriesCount(entries)
  {
    if entries != [] {
      ChildrenWeight(dir, loc, entries[1..]);
      if entries[0].Child? {
        var first := Item(Paths.Join(dir, entries[0].name), loc + [entries[0].name], entries[0].node);
        assert Children(dir, loc, entries)[1..] == Children(dir, loc, entries[1..]);
        assert Children(dir, loc, entries)[0] == first;
      } else {
        assert Children(dir, loc, entries) == Children(dir, loc, entries[1..]);
      }
    }
  }

  lemma KidsWeight(item: Item)
    ensures Weight(Kids(item)) == NodeCount(item.node) - 1
  {
    if item.node.Dir? {
      ChildrenWeight(Paths.NormalizeSmbPath(item.path), item.loc, item.node.entries);
    }
  }

  lemma QueueShrinks(items: seq<Item>)
    requires items != []
    ensures Weight(items[1..] + Kids(items[0])) == Weight(items) - 1
  {
    WeightAppend(items[1..], Kids(items[0]));
    KidsWeight(items[0]);
  }

  /** The order in which a queue visits. */
  function Bfs(queue: seq<Item>): seq<Item>
    decreases Weight(queue)
  {
    if queue == [] then []
    else
      QueueShrinks(queue);
      [queue[0]] + Bfs(queue[1..] + Kids(queue[0]))
  }

  /** The files among the visits, in order. */
  function FilesOf(items: seq<Item>): seq<Item> {
    if items == [] then []
    else
      var n := |items| - 1;
      FilesOf(items[..n]) + if items[n].node.File? then [items[n]] else []
  }

  datatype Sample = Sample(path: Text, bytesRead: nat)

  function Bytes(files: seq<Item>, maxRead: nat, cap: nat): nat {
    if files == [] then 0
    else
      var n := |files| - 1;
      Bytes(files[..n], maxRead, cap) + if files[n].node.File? then Got(files[n].node.size, maxRead, cap) else 0
  }

  /** What the walk reports about a list of files. */
  function Samples(files: seq<Item>, maxRead: nat, cap: nat): (r: seq<Sample>)
    ensures |r| == |files|
  {
    if files == [] then []
    else
      var n := |files| - 1;
      Samples(files[..n], maxRead, cap)
      + [Sample(files[n].path, if files[n].node.File? then Got(files[n].node.size, maxRead, cap) else 0)]
  }

  const SAMPLE_COUNT: nat := 10

  datatype Summary = Summary(filesRead: nat, directoriesVisited: nat, totalBytesRead: nat, sampleFiles: seq<Sample>)

  /** The report on a list of visits. */
  function Report(visits: seq<Item>, maxRead: nat, cap: nat): Summary {
    var files := FilesOf(visits);
    FilesAreFewer(visits);
    Summary(|files|, |visits| - |files|, Bytes(files, maxRead, cap),
            Samples(files[..Min(SAMPLE_COUNT, |files|)], maxRead, cap))
  }

  lemma {:induction false} FilesAreFewer(items: seq<Item>)
    ensures |FilesOf(items)| <= |items|
  {
    if items != [] {
      FilesAreFewer(items[..|items| - 1]);
    }
  }

  // ---- Lookups ----------------------------------------------------------------------------

  lemma {:induction false} FindAppend(node: Node, loc: seq<Text>, name: Text)
    ensures Find(node, loc + [name]) ==
      match Find(node, loc)
      case None => None
      case Some(n) => if n.File? then None else FindEntry(n.entries, name)
  {
    if loc == [] {
      assert (loc + [name])[1..] == [];
    } else if node.Dir? && FindEntry(node.entries, loc[0]).Some? {
      assert (loc + [name])[1..] == loc[1..] + [name];
      FindAppend(FindEntry(node.entries, loc[0]).value, loc[1..], name);
    }
  }

  lemma {:induction false} EntryFound(top: bool, entries: seq<Entry>, k: nat)
    requires WellNamedEntries(top, entries) && k < |entries| && entries[k].Child?
    ensures FindEntry(entries, entries[k].name) == Some(entries[k].node)
    ensures GoodName(top, entries[k].name) && WellNamed(false, entries[k].node)
  {
    if k > 0 {
      EntryFound(top, entries[1..], k - 1);
    }
  }

  /** Children come in the order of the listing, each with its path, its place and its node. */
  lemma {:induction false} ChildrenAt(dir: Text, loc: seq<Text>, entries: seq<Entry>, k: nat)
    requires k < |entries| && entries[k].Child?
    ensures var before, e := Children(dir, loc, entries[..k]), entries[k];
      && |before| < |Children(dir, loc, entries)|
      && before == Children(dir, loc, entries)[..|before|]
      && Children(dir, loc, entries)[|before|] == Item(Paths.Join(dir, e.name), loc + [e.name], e.node)
  {
    hide Paths.Join;
    if k == 0 {
      assert entries[..0] == [];
    } else {
      assert entries[..k][1..] == entries[1..][..k - 1];
      ChildrenAt(dir, loc, entries[1..], k - 1);
    }
  }

  // ---- The reference ----------------------------------------------------------------------

  /** The visits of a walk, if there is anything at the root path. */
  function Visits(tree: Node, root: Text): seq<Item> {
    match Find(tree, Where(root))
    case None => []
    case Some(node) => Bfs([Item(root, Where(root), node)])
  }

  /** What a walk reports: nothing if the root is missing or a file cannot be read. */
  function Walked(tree: Node, root: Text, maxRead: nat, cap: nat): Option<Summary> {
    var visits := Visits(tree, root);
    if visits == [] || (ChunkRefused(maxRead) && FilesOf(visits) != []) then None
    else Some(Report(visits, maxRead, cap))
  }

  lemma RootVisits(tree: Node, root: Text)
    requires Find(tree, Where(root)).Some?
    ensures var item := Item(root, Where(root), Find(tree, Where(root)).value);
      Bfs([item]) == Visits(tree, root) && Visits(tree, root) != []
  {
  }

  lemma ReportNothing(maxRead: nat, cap: nat)
    ensures Report([], maxRead, cap) == Summary(0, 0, 0, []) && FilesOf([]) == []
  {
  }

  /** What one more visit adds to the report. */
  lemma ReportStep(seen: seq<Item>, item: Item, maxRead: nat, cap: nat)
    ensures var before, after := Report(seen, maxRead, cap), Report(seen + [item], maxRead, cap);
      && FilesOf(seen + [item]) == FilesOf(seen) + (if item.node.File? then [item] else [])
      && after == if item.node.File?
        then Summary(before.filesRead + 1, before.directoriesVisited,
          before.totalBytesRead + Got(item.node.size, maxRead, cap),
          if |before.sampleFiles| < SAMPLE_COUNT
          then before.sampleFiles + [Sample(item.path, Got(item.node.size, maxRead, cap))]
          else before.sampleFiles)
        else before.(directoriesVisited := before.directoriesVisited + 1)
  {
    FilesStep(seen, item);
    FilesAreFewer(seen);
    FilesAreFewer(seen + [item]);
    hide Got, FilesOf, Bytes, Samples, Min;
    if item.node.File? {
      BytesStep(FilesOf(seen), item, maxRead, cap);
      SamplesStep(FilesOf(seen), item, maxRead, cap);
    }
  }

  lemma FilesStep(seen: seq<Item>, item: Item)
    ensures FilesOf(seen + [item]) == FilesOf(seen) + (if item.node.File? then [item] else [])
    ensures item.node.Dir? ==> FilesOf(seen + [item]) == FilesOf(seen)
  {
    assert (seen + [item])[..|seen|] == seen;
  }

  lemma BytesStep(files: seq<Item>, item: Item, maxRead: nat, cap: nat)
    requires item.node.File?
    ensures Bytes(files + [item], maxRead, cap) == Bytes(files, maxRead, cap) + Got(item.node.size, maxRead, cap)
  {
    assert (files + [item])[..|files|] == files;
  }

  lemma SamplesStep(files: seq<Item>, item: Item, maxRead: nat, cap: nat)
    requires item.node.File?
    ensures var before := Samples(files[..Min(SAMPLE_COUNT, |files|)], maxRead, cap);
      Samples((files + [item])[..Min(SAMPLE_COUNT, |files| + 1)], maxRead, cap) ==
        if |before| < SAMPLE_COUNT then before + [Sample(item.path, Got(item.node.size, maxRead, cap))] else before
  {
    var more := files + [item];
    if |files| < SAMPLE_COUNT {
      assert more[..|more|] == more && more[..|files|] == files && files[..|files|] == files;
    } else {
      assert more[..SAMPLE_COUNT] == files[..SAMPLE_COUNT];
    }
  }

  lemma {:induction false} FilesOfAppend(a: seq<Item>, b: seq<Item>)
    ensures FilesOf(a + b) == FilesOf(a) + FilesOf(b)
  {
    if b == [] {
      assert a + b == a;
    } else {
      var n := |b| - 1;
      assert (a + b)[..|a| + n] == a + b[..n];
      FilesOfAppend(a, b[..n]);
    }
  }

  // ---- Level order ------------------------------------------------------------------------

  /** The children of a whole level. */
  function KidsOfAll(items: seq<Item>): seq<Item> {
    if items == [] then [] else Kids(items[0]) + KidsOfAll(items[1..])
  }

  lemma {:induction false} KidsOfAllWeight(items: seq<Item>)
    ensures Weight(KidsOfAll(items)) + |items| == Weight(items)
  {
    if items != [] {
      WeightAppend(Kids(items[0]), KidsOfAll(items[1..]));
      KidsWeight(items[0]);
      KidsOfAllWeight(items[1..]);
    }
  }

  /** Level after level. */
  function Levels(level: seq<Item>): seq<Item>
    decreases Weight(level)
  {
    if level == [] then []
    else
      KidsOfAllWeight(level);
      level + Levels(KidsOfAll(level))
  }

  lemma {:induction false} BfsSkip(a: seq<Item>, b: seq<Item>)
    ensures Bfs(a + b) == a + Bfs(b + KidsOfAll(a))
    decreases a
  {
    hide Kids, NodeCount;
    if a == [] {
      assert a + b == b && b + [] == b;
    } else {
      var more := b + Kids(a[0]);
      assert (a + b)[1..] + Kids(a[0]) == a[1..] + more;
      assert Bfs(a + b) == [a[0]] + Bfs(a[1..] + more);
      BfsSkip(a[1..], more);
      assert more + KidsOfAll(a[1..]) == b + KidsOfAll(a);
      assert [a[0]] + (a[1..] + Bfs(b + KidsOfAll(a))) == a + Bfs(b + KidsOfAll(a));
    }
  }

  /** The queue visits level after level. */
  lemma {:induction false} BfsIsLevels(level: seq<Item>)
    ensures Bfs(level) == Levels(level)
    decreases Weight(level)
  {
    if level != [] {
      KidsOfAllWeight(level);
      BfsSkip(level, []);
      assert level + [] == level && [] + KidsOfAll(level) == KidsOfAll(level);
      BfsIsLevels(KidsOfAll(level));
    }
  }

  predicate AtDepth(items: seq<Item>, depth: nat) {
    forall i :: 0 <= i < |items| ==> |items[i].loc| == depth
  }

  lemma {:induction false} ChildrenDepth(dir: Text, loc: seq<Text>, entries: seq<Entry>)
    ensures AtDepth(Children(dir, loc, entries), |loc| + 1)
  {
    if entries != [] {
      ChildrenDepth(dir, loc, entries[1..]);
    }
  }

  lemma {:induction false} KidsOfAllDepth(items: seq<Item>, depth: nat)
    requires AtDepth(items, depth)
    ensures AtDepth(KidsOfAll(items), depth + 1)
  {
    if items != [] {
      KidsOfAllDepth(items[1..], depth);
      if items[0].node.Dir? {
        ChildrenDepth(Paths.NormalizeSmbPath(items[0].path), items[0].loc, items[0].node.entries);
      }
    }
  }

  /** No place comes before one that lies less deep, and none lies less deep than `depth`. */
  ghost predicate ByDepth(items: seq<Item>, depth: nat) {
    && (forall i :: 0 <= i < |items| ==> |items[i].loc| >= depth)
    && (forall i, j :: 0 <= i < j < |items| ==> |items[i].loc| <= |items[j].loc|)
  }

  lemma {:induction false} LevelsByDepth(level: seq<Item>, depth: nat)
    requires AtDepth(level, depth)
    ensures ByDepth(Levels(level), depth)
    decreases Weight(level)
  {
    hide AtDepth, ByDepth, KidsOfAll;
    if level == [] {
      NothingByDepth(depth);
    } else {
      KidsOfAllWeight(level);
      KidsOfAllDepth(level, depth);
      LevelsByDepth(KidsOfAll(level), depth + 1);
      DepthsJoin(level, Levels(KidsOfAll(level)), depth);
    }
  }

  /** A walk visits level after level, so nothing comes before anything that lies less deep. */
  lemma VisitsByDepth(tree: Node, root: Text)
    requires Find(tree, Where(root)).Some?
    ensures var start := [Item(root, Where(root), Find(tree, Where(root)).value)];
      Visits(tree, root) == Levels(start)
    ensures ByDepth(Visits(tree, root), |Where(root)|)
  {
    var start := [Item(root, Where(root), Find(tree, Where(root)).value)];
    BfsIsLevels(start);
    LevelsByDepth(start, |Where(root)|);
  }

  lemma NothingByDepth(depth: nat)
    ensures ByDepth([], depth)
  {
  }

  lemma DepthsJoin(a: seq<Item>, b: seq<Item>, depth: nat)
    requires AtDepth(a, depth) && ByDepth(b, depth + 1)
    ensures ByDepth(a + b, depth)
  {
    var v := a + b;
    forall i, j | 0 <= i < j < |v| ensures |v[i].loc| <= |v[j].loc| {
      if i >= |a| {
        assert v[i] == b[i - |a|] && v[j] == b[j - |a|];
      }
    }
  }

  // ---- Every node once --------------------------------------------------------------------

  function Locs(items: seq<Item>): seq<seq<Text>> {
    if items == [] then [] else [items[0].loc] + Locs(items[1..])
  }

  /** The places of a tree, node before children. */
  function Places(loc: seq<Text>, node: Node): seq<seq<Text>>
    decreases node
  {
    match node
    case File(_) => [loc]
    case Dir(entries) => [loc] + PlacesIn(loc, entries)
  }

  function PlacesIn(loc: seq<Text>, entries: seq<Entry>): seq<seq<Text>>
    decreases entries
  {
    if entries == [] then []
    else
      (if entries[0].Child? then Places(loc + [entries[0].name], entries[0].node) else [])
      + PlacesIn(loc, entries[1..])
  }

  function PlacesOfAll(items: seq<Item>): seq<seq<Text>> {
    if items == [] then [] else Places(items[0].loc, items[0].node) + PlacesOfAll(items[1..])
  }

  lemma {:induction false} PlacesAppend(a: seq<Item>, b: seq<Item>)
    ensures PlacesOfAll(a + b) == PlacesOfAll(a) + PlacesOfAll(b)
  {
    if a == [] {
      assert a + b == b;
    } else {
      assert (a + b)[1..] == a[1..] + b;
      PlacesAppend(a[1..], b);
    }
  }

  lemma {:induction false} ChildrenPlaces(dir: Text, loc: seq<Text>, entries: seq<Entry>)
    ensures PlacesOfAll(Children(dir, loc, entries)) == PlacesIn(loc, entries)
  {
    if entries != [] {
      ChildrenPlaces(dir, loc, entries[1..]);
      var rest := Children(dir, loc, entries[1..]);
      if entries[0].Child? {
        assert Children(dir, loc, entries)[1..] == rest;
      } else {
        assert Children(dir, loc, entries) == rest;
      }
    }
  }

  /** Breadth first visits the places that depth first lists. */
  lemma {:induction false} BfsPlaces(queue: seq<Item>)
    ensures multiset(Locs(Bfs(queue))) == multiset(PlacesOfAll(queue))
    decreases Weight(queue)
  {
    if queue != [] {
      var item, rest := queue[0], queue[1..];
      QueueShrinks(queue);
      BfsPlaces(rest + Kids(item));
      PlacesAppend(rest, Kids(item));
      assert Bfs(queue)[1..] == Bfs(rest + Kids(item));
      assert Locs(Bfs(queue)) == [item.loc] + Locs(Bfs(rest + Kids(item)));
      KidsPlaces(item);
    }
  }

  lemma KidsPlaces(item: Item)
    ensures Places(item.loc, item.node) == [item.loc] + PlacesOfAll(Kids(item))
  {
    match item.node
    case File(_) => assert [item.loc] + [] == [item.loc];
    case Dir(entries) => ChildrenPlaces(Paths.NormalizeSmbPath(item.path), item.loc, entries);
  }

  /** What `x` is called below `loc`, if that is where it lies and if there is such a node. */
  predicate Below(loc: seq<Text>, node: Node, x: seq<Text>) {
    loc <= x && Find(node, x[|loc|..]).Some?
  }

  predicate BelowIn(loc: seq<Text>, entries: seq<Entry>, x: seq<Text>) {
    && loc < x
    && FindEntry(entries, x[|loc|]).Some?
    && Find(FindEntry(entries, x[|loc|]).value, x[|loc| + 1..]).Some?
  }

  lemma {:induction false} PlacesOnce(top: bool, loc: seq<Text>, node: Node, x: seq<Text>)
    requires WellNamed(top, node)
    ensures multiset(Places(loc, node))[x] == if Below(loc, node, x) then 1 else 0
    decreases node
  {
    FindBelow(loc, node, x);
    match node
    case File(_) =>
    case Dir(entries) =>
      PlacesInOnce(top, loc, entries, x);
      assert Places(loc, node) == [loc] + PlacesIn(loc, entries);
      hide BelowIn, Below;
  }

  /** A node lies below itself; the rest of what lies below lies below its entries. */
  lemma FindBelow(loc: seq<Text>, node: Node, x: seq<Text>)
    ensures Below(loc, node, x) <==> x == loc || (node.Dir? && BelowIn(loc, node.entries, x))
    ensures node.Dir? && BelowIn(loc, node.entries, x) ==> x != loc
  {
    if loc <= x {
      var rest := x[|loc|..];
      assert x == loc + rest;
      if rest != [] {
        assert rest[0] == x[|loc|] && rest[1..] == x[|loc| + 1..];
      }
    }
  }

  lemma {:induction false} PlacesInOnce(top: bool, loc: seq<Text>, entries: seq<Entry>, x: seq<Text>)
    requires WellNamedEntries(top, entries)
    ensures multiset(PlacesIn(loc, entries))[x] == if BelowIn(loc, entries, x) then 1 else 0
    decreases entries
  {
    if entries != [] {
      PlacesInOnce(top, loc, entries[1..], x);
      BelowFirst(loc, entries, x);
      if entries[0].Child? {
        PlacesOnce(false, loc + [entries[0].name], entries[0].node, x);
        assert PlacesIn(loc, entries)
            == Places(loc + [entries[0].name], entries[0].node) + PlacesIn(loc, entries[1..]);
      }
      hide Below, BelowIn, Places, WellNamed, GoodName;
    }
  }

  /** What lies below some entries lies below the first or below the others, not both. */
  lemma BelowFirst(loc: seq<Text>, entries: seq<Entry>, x: seq<Text>)
    requires entries != [] && (entries[0].Child? ==> FindEntry(entries[1..], entries[0].name).None?)
    ensures BelowIn(loc, entries, x) <==>
      (entries[0].Child? && Below(loc + [entries[0].name], entries[0].node, x)) || BelowIn(loc, entries[1..], x)
    ensures entries[0].Child? && Below(loc + [entries[0].name], entries[0].node, x) ==> !BelowIn(loc, entries[1..], x)
  {
    hide Find;
    if entries[0].Child? {
      assert loc + [entries[0].name] <= x <==> loc < x && x[|loc|] == entries[0].name;
    }
  }

  /** A walk visits every node at or below its root exactly once, and nothing else. */
  lemma VisitsEachNodeOnce(tree: Node, root: Text, x: seq<Text>)
    requires Find(tree, Where(root)).Some? && WellNamed(Where(root) == [], Find(tree, Where(root)).value)
    ensures multiset(Locs(Visits(tree, root)))[x] == if Where(root) <= x && Find(tree, x).Some? then 1 else 0
  {
    var start := Where(root);
    var node := Find(tree, start).value;
    var item := Item(root, start, node);
    BfsPlaces([item]);
    assert PlacesOfAll([item]) == Places(start, node) + [];
    PlacesOnce(start == [], start, node, x);
    if start <= x {
      FindSplit(tree, start, x);
    }
  }

  lemma {:induction false} FindSplit(node: Node, loc: seq<Text>, x: seq<Text>)
    requires loc <= x && Find(node, loc).Some?
    ensures Find(node, x) == Find(Find(node, loc).value, x[|loc|..])
  {
    if loc != [] {
      assert x[0] == loc[0] && x[1..][|loc| - 1..] == x[|loc|..];
      FindSplit(FindEntry(node.entries, loc[0]).value, loc[1..], x[1..]);
    } else {
      assert x[0..] == x;
    }
  }

  // ---- Totals -----------------------------------------------------------------------------

  datatype Totals = Totals(files: nat, directories: nat, size: nat, got: nat)

  const NOTHING := Totals(0, 0, 0, 0)

  function Plus(a: Totals, b: Totals): Totals {
    Totals(a.files + b.files, a.directories + b.directories, a.size + b.size, a.got + b.got)
  }

  /** A whole tree: its files, its directories, the sum of the file sizes, and how much of that
      the chunk loop gets. */
  function TreeTotals(node: Node, maxRead: nat, cap: nat): Totals
    decreases node
  {
    match node
    case File(size) => Totals(1, 0, size, Got(size, maxRead, cap))
    case Dir(entries) => Plus(Totals(0, 1, 0, 0), EntriesTotals(entries, maxRead, cap))
  }

  function EntriesTotals(entries: seq<Entry>, maxRead: nat, cap: nat): Totals
    decreases entries
  {
    if entries == [] then NOTHING
    else
      Plus(if entries[0].Child? then TreeTotals(entries[0].node, maxRead, cap) else NOTHING,
           EntriesTotals(entries[1..], maxRead, cap))
  }

  function QueueTotals(items: seq<Item>, maxRead: nat, cap: nat): Totals {
    if items == [] then NOTHING
    else Plus(TreeTotals(items[0].node, maxRead, cap), QueueTotals(items[1..], maxRead, cap))
  }

  lemma PlusLaws(a: Totals, b: Totals, c: Totals)
    ensures Plus(Plus(a, b), c) == Plus(a, Plus(b, c))
    ensures Plus(NOTHING, a) == a == Plus(a, NOTHING)
  {
  }

  lemma {:induction false} QueueTotalsAppend(a: seq<Item>, b: seq<Item>, maxRead: nat, cap: nat)
    ensures QueueTotals(a + b, maxRead, cap) == Plus(QueueTotals(a, maxRead, cap), QueueTotals(b, maxRead, cap))
  {
    hide TreeTotals, Plus;
    if a == [] {
      assert a + b == b;
      PlusLaws(QueueTotals(b, maxRead, cap), NOTHING, NOTHING);
    } else {
      assert (a + b)[1..] == a[1..] + b;
      QueueTotalsAppend(a[1..], b, maxRead, cap);
      PlusLaws(TreeTotals(a[0].node, maxRead, cap), QueueTotals(a[1..], maxRead, cap), QueueTotals(b, maxRead, cap));
    }
  }

  lemma {:induction false} ChildrenTotals(dir: Text, loc: seq<Text>, entries: seq<Entry>, maxRead: nat, cap: nat)
    ensures QueueTotals(Children(dir, loc, entries), maxRead, cap) == EntriesTotals(entries, maxRead, cap)
  {
    hide TreeTotals, Plus;
    if entries != [] {
      ChildrenTotals(dir, loc, entries[1..], maxRead, cap);
      var rest := Children(dir, loc, entries[1..]);
      PlusLaws(EntriesTotals(entries[1..], maxRead, cap), NOTHING, NOTHING);
      if entries[0].Child? {
        assert Children(dir, loc, entries)[1..] == rest;
      } else {
        assert Children(dir, loc, entries) == rest;
      }
    }
  }

  lemma {:induction false} BytesAppend(a: seq<Item>, b: seq<Item>, maxRead: nat, cap: nat)
    ensures Bytes(a + b, maxRead, cap) == Bytes(a, maxRead, cap) + Bytes(b, maxRead, cap)
  {
    if b == [] {
      assert a + b == a;
    } else {
      var n := |b| - 1;
      assert (a + b)[..|a| + n] == a + b[..n];
      BytesAppend(a, b[..n], maxRead, cap);
    }
  }

  /** The visits add up to what a queue holds. */
  ghost predicate AddsUp(visits: seq<Item>, t: Totals, maxRead: nat, cap: nat) {
    && |FilesOf(visits)| == t.files
    && |visits| == t.files + t.directories
    && Bytes(FilesOf(visits), maxRead, cap) == t.got
  }

  lemma {:induction false} BfsTotals(queue: seq<Item>, maxRead: nat, cap: nat)
    ensures AddsUp(Bfs(queue), QueueTotals(queue, maxRead, cap), maxRead, cap)
    decreases Weight(queue)
  {
    if queue == [] {
      assert FilesOf([]) == [] && Bytes([], maxRead, cap) == 0;
    } else {
      hide AddsUp, Plus, TreeTotals, Kids;
      var item, rest := queue[0], queue[1..];
      QueueShrinks(queue);
      BfsTotals(rest + Kids(item), maxRead, cap);
      QueueTotalsAppend(rest, Kids(item), maxRead, cap);
      VisitAddsUp(item, Bfs(rest + Kids(item)), QueueTotals(rest, maxRead, cap), maxRead, cap);
    }
  }

  lemma VisitAddsUp(item: Item, more: seq<Item>, rest: Totals, maxRead: nat, cap: nat)
    requires AddsUp(more, Plus(rest, QueueTotals(Kids(item), maxRead, cap)), maxRead, cap)
    ensures AddsUp([item] + more, Plus(TreeTotals(item.node, maxRead, cap), rest), maxRead, cap)
  {
    hide Kids, TreeTotals, FilesOf, Bytes;
    FilesOfAppend([item], more);
    BytesAppend(FilesOf([item]), FilesOf(more), maxRead, cap);
    ItemTotals(item, maxRead, cap);
  }

  lemma ItemTotals(item: Item, maxRead: nat, cap: nat)
    ensures var t, kids := TreeTotals(item.node, maxRead, cap), QueueTotals(Kids(item), maxRead, cap);
      var files := FilesOf([item]);
      && t.files == |files| + kids.files
      && t.files + t.directories == 1 + kids.files + kids.directories
      && t.got == Bytes(files, maxRead, cap) + kids.got
  {
    hide Got;
    assert FilesOf([item]) == if item.node.File? then [item] else [];
    if item.node.Dir? {
      ChildrenTotals(Paths.NormalizeSmbPath(item.path), item.loc, item.node.entries, maxRead, cap);
    }
  }

  /** No file below is longer than the server returns in one piece. */
  predicate SmallFiles(node: Node, cap: nat)
    decreases node
  {
    match node
    case File(size) => size <= cap
    case Dir(entries) => SmallFilesIn(entries, cap)
  }

  predicate SmallFilesIn(entries: seq<Entry>, cap: nat)
    decreases entries
  {
    entries != [] ==> (entries[0].Child? ==> SmallFiles(entries[0].node, cap)) && SmallFilesIn(entries[1..], cap)
  }

  /** The chunk loop gets everything exactly when the server fills its chunks, or no file is
      too long for what it returns. */
  lemma {:induction false} GotEverything(node: Node, maxRead: nat, cap: nat)
    ensures var t := TreeTotals(node, maxRead, cap);
      t.got <= t.size && (t.got == t.size <==> (cap >= 65536 && cap >= maxRead) || SmallFiles(node, cap))
    decreases node
  {
    if node.Dir? {
      GotEverythingIn(node.entries, maxRead, cap);
    }
  }

  lemma {:induction false} GotEverythingIn(entries: seq<Entry>, maxRead: nat, cap: nat)
    ensures var t := EntriesTotals(entries, maxRead, cap);
      t.got <= t.size && (t.got == t.size <==> (cap >= 65536 && cap >= maxRead) || SmallFilesIn(entries, cap))
    decreases entries
  {
    if entries != [] {
      GotEverythingIn(entries[1..], maxRead, cap);
      if entries[0].Child? {
        GotEverything(entries[0].node, maxRead, cap);
      }
    }
  }

  // ---- The report -------------------------------------------------------------------------

  lemma {:induction false} SamplesAt(files: seq<Item>, maxRead: nat, cap: nat, k: nat)
    requires k < |files| && files[k].node.File?
    ensures Samples(files, maxRead, cap)[k] == Sample(files[k].path, Got(files[k].node.size, maxRead, cap))
  {
    if k < |files| - 1 {
      SamplesAt(files[..|files| - 1], maxRead, cap, k);
    }
  }

  lemma {:induction false} OnlyFiles(items: seq<Item>, k: nat)
    requires k < |FilesOf(items)|
    ensures FilesOf(items)[k].node.File?
  {
    var n := |items| - 1;
    if k < |FilesOf(items[..n])| {
      OnlyFiles(items[..n], k);
    }
  }

  /** A walk fails exactly when there is nothing at its root, or there is a file to read and the
      server has announced reads shorter than the walk asks for. */
  lemma WalkFails(tree: Node, root: Text, maxRead: nat, cap: nat)
    ensures Walked(tree, root, maxRead, cap).None? <==>
      var found := Find(tree, Where(root));
      found.None? || (0 < maxRead < 65536 && TreeTotals(found.value, maxRead, cap).files > 0)
  {
    if Find(tree, Where(root)).Some? {
      VisitTotals(tree, root, maxRead, cap);
    }
  }

  lemma VisitTotals(tree: Node, root: Text, maxRead: nat, cap: nat)
    requires Find(tree, Where(root)).Some?
    ensures var visits, t := Visits(tree, root), TreeTotals(Find(tree, Where(root)).value, maxRead, cap);
      && visits != []
      && |FilesOf(visits)| == t.files
      && |visits| == t.files + t.directories
      && Bytes(FilesOf(visits), maxRead, cap) == t.got
  {
    var item := Item(root, Where(root), Find(tree, Where(root)).value);
    BfsTotals([item], maxRead, cap);
    RootVisits(tree, root);
    hide Bfs, TreeTotals, FilesOf, Bytes;
    assert [item][1..] == [];
    assert QueueTotals([item], maxRead, cap) == Plus(TreeTotals(item.node, maxRead, cap), NOTHING);
  }

  /** What a walk reports: as many files and directories as the tree has, every byte exactly when
      the server does not cut its files short, and the first ten files it visits. */
  lemma WalkReports(tree: Node, root: Text, maxRead: nat, cap: nat, k: nat)
    requires Walked(tree, root, maxRead, cap).Some?
    ensures var r := Walked(tree, root, maxRead, cap).value;
      var node := Find(tree, Where(root)).value;
      var files := FilesOf(Levels([Item(root, Where(root), node)]));
      var t := TreeTotals(node, maxRead, cap);
      && r.filesRead == t.files == |files|
      && r.directoriesVisited == t.directories
      && (r.totalBytesRead == t.size <==> (cap >= 65536 && cap >= maxRead) || SmallFiles(node, cap))
      && |r.sampleFiles| == (if t.files < 10 then t.files else 10)
      && (k < |r.sampleFiles| ==>
            files[k].node.File? && r.sampleFiles[k] == Sample(files[k].path, Got(files[k].node.size, maxRead, cap)))
  {
    hide Bfs, Levels, Got, TreeTotals, Find, FilesOf, Bytes, Samples, SmallFiles;
    var node := Find(tree, Where(root)).value;
    var visits := Visits(tree, root);
    var files := FilesOf(visits);
    VisitTotals(tree, root, maxRead, cap);
    GotEverything(node, maxRead, cap);
    BfsIsLevels([Item(root, Where(root), node)]);
    var first := files[..Min(SAMPLE_COUNT, |files|)];
    if k < |first| {
      OnlyFiles(visits, k);
      SamplesAt(first, maxRead, cap, k);
    }
  }

  /** The path that Readdir reports for a child leads to the place of the child exactly when its name
      is safe from trimming; for any directory whose normal form does not start with white space. */
  lemma ChildLocated(path: Text, name: Text)
    requires var dir := Paths.NormalizeSmbPath(path); dir != [] ==> !Paths.IsSpace(dir[0])
    requires Paths.Clean(name)
    ensures var dir := Paths.NormalizeSmbPath(path);
      Where(Paths.Join(dir, name)) == Where(path) + [name] <==> Paths.SafeName(dir, name)
  {
    hide Paths.NormalizeSmbPath, Paths.Join, Paths.Canonical, Paths.SafeName;
    Paths.NormalizedShape(path);
    Paths.ReaddirReaches(Paths.NormalizeSmbPath(path), name);
  }

  /** A file at the top of a share whose name starts with a blank cannot be reached by the path
      that Readdir gives for it. */
  lemma BlankNameIsLost(size: nat)
    ensures var tree := Dir([Child([0x20, 0x61], File(size))]);
      Find(tree, [[0x20, 0x61]]) == Some(File(size))
      && Find(tree, Where(Paths.Join([], [0x20, 0x61]))) == None
  {
    var name: Text, a: Text := [0x20, 0x61], [0x61];
    assert [name][1..] == [];
    assert name[1..] == a;
    assert Paths.Trim(name) == a;
    Paths.NormalizeIsCanonical(name);
    Paths.SegmentsCons(a, []);
    assert a + [] == a;
    assert Paths.Segments(a) == [a];
    Paths.CanonicalTwice(a);
    assert Where(name) == [a];
    assert FindEntry([Child(name, File(size))], a) == FindEntry([], a);
  }
}
