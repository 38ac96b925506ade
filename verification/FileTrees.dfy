/** A copied tree of files turned into a manifest (`collect`, `walk` in
    `geserdesk-clipboard/src/files.rs`). */
module FileTrees {
  import opened Wrappers
  import opened Framing

  const MAX_ENTRIES: nat := 10_000
  const MAX_DEPTH: nat := 32
  const MAX_U64: nat := 0xFFFF_FFFF_FFFF_FFFF

  /** A path, component by component. */
  type Path = seq<string>

  /** What is at a path: a file, a folder (listed in name order, unless it cannot be read), or
      something that is never copied: a symbolic link, a device, a socket. */
  datatype Node = File(bytes: seq<byte>) | Dir(kids: Forest, readable: bool) | Other

  datatype Forest = Nil | Cons(name: string, node: Node, rest: Forest)

  function Child(f: Forest, name: string): Option<Node> {
    match f
    case Nil => None
    case Cons(n, node, rest) => if n == name then Some(node) else Child(rest, name)
  }

  /** What is at `path` on the disk whose top folder holds `f`. */
  function NodeAt(f: Forest, path: Path): Option<Node>
    decreases |path|
  {
    if path == [] then Some(Dir(f, true))
    else
      var kid := Child(f, path[0]);
      if |path| == 1 || kid.None? then kid
      else if kid.value.Dir? then NodeAt(kid.value.kids, path[1..])
      else None
  }

  /** A name a file system can hold. */
  predicate IsName(s: string) {
    s != "" && '/' !in s
  }

  /** In every folder the names are names, and no two are the same. */
  predicate Sane(f: Forest) {
    match f
    case Nil => true
    case Cons(n, node, rest) => IsName(n) && Child(rest, n).None? && SaneNode(node) && Sane(rest)
  }

  predicate SaneNode(node: Node) {
    node.Dir? ==> Sane(node.kids)
  }

  // ---- the manifest ------------------------------------------------------------------------------

  datatype FileEntry = FileEntry(path: string, size: nat, dir: bool)

  datatype CollectError = TooManyEntries | TooDeep | TooMuch(max: nat)

  /** The three accumulators of a collection. */
  datatype Gathered = Gathered(entries: seq<FileEntry>, abs: seq<Path>, total: nat)

  const NOTHING: Gathered := Gathered([], [], 0)

  /** The sizes of the files of a manifest, added up. */
  function SummedBytes(entries: seq<FileEntry>): nat {
    if entries == [] then 0
    else SummedBytes(entries[..|entries| - 1]) + (var e := entries[|entries| - 1]; if e.dir then 0 else e.size)
  }

  /** `total_bytes`: the same in 64 bits, where a sum too large wraps around. */
  function TotalBytes(entries: seq<FileEntry>): nat {
    Wrapped(SummedBytes(entries))
  }

  function Wrapped(sum: nat): (n: nat)
    ensures sum <= MAX_U64 ==> n == sum
  {
    sum % (MAX_U64 + 1)
  }

  function PushEntry(g: Gathered, entry: FileEntry, path: Path): Result<Gathered, CollectError> {
    if |g.entries| + 1 > MAX_ENTRIES then Err(TooManyEntries)
    else Ok(g.(entries := g.entries + [entry], abs := g.abs + [path]))
  }

  function Walk(node: Node, path: Path, rel: string, depth: nat, g: Gathered, max: nat): Result<Gathered, CollectError>
    decreases node
  {
    if depth > MAX_DEPTH then Err(TooDeep)
    else
      match node
      case Other => Ok(g)
      case Dir(kids, readable) =>
        (match PushEntry(g, FileEntry(rel, 0, true), path)
         case Err(e) => Err(e)
         case Ok(g1) => if readable then WalkAll(kids, path, rel, depth + 1, g1, max) else Ok(g1))
      case File(bytes) =>
        var total := g.total + |bytes|;
        if total > MAX_U64 || (max > 0 && total > max) then Err(TooMuch(max))
        else PushEntry(g.(total := total), FileEntry(rel, |bytes|, false), path)
  }

  function WalkAll(kids: Forest, path: Path, rel: string, depth: nat, g: Gathered,
          max: nat): Result<Gathered, CollectError>
    decreases kids
  {
    match kids
    case Nil => Ok(g)
    case Cons(name, node, rest) =>
      match Walk(node, path + [name], rel + "/" + name, depth, g, max)
      case Err(e) => Err(e)
      case Ok(g1) => WalkAll(rest, path, rel, depth, g1, max)
  }

  /** A root is shown by its last component; the top of the disk has none. */
  function RootName(root: Path): string {
    if root == [] then "item" else root[|root| - 1]
  }

  /** What one root adds; one that has vanished adds nothing. */
  function OneRoot(disk: Forest, root: Path, max: nat, g: Gathered): Result<Gathered, CollectError> {
    var node := NodeAt(disk, root);
    if node.None? then Ok(g) else Walk(node.value, root, RootName(root), 0, g, max)
  }

  /** The roots walked one after the other. */
  function Collect(disk: Forest, roots: seq<Path>, max: nat, g: Gathered): Result<Gathered, CollectError>
  {
    if roots == [] then Ok(g)
    else
      match OneRoot(disk, roots[0], max, g)
      case Err(e) => Err(e)
      case Ok(g1) => Collect(disk, roots[1..], max, g1)
  }

  /** `collect` and `walk`, pushing onto their accumulators. */
  class Collector {
    var entries: seq<FileEntry>
    var abs: seq<Path>
    var total: nat

    function View(): Gathered
      reads this
    {
      Gathered(entries, abs, total)
    }

    constructor ()
      ensures View() == NOTHING
    {
      entries, abs, total := [], [], 0;
    }

    method Push(entry: FileEntry, path: Path) returns (error: Option<CollectError>)
      modifies this
      ensures match PushEntry(old(View()), entry, path)
        case Ok(g) => error == None && View() == g
        case Err(e) => error == Some(e)
    {
      entries := entries + [entry];
      abs := abs + [path];
      return if |entries| > MAX_ENTRIES then Some(TooManyEntries) else None;
    }

    method WalkNode(node: Node, path: Path, rel: string, depth: nat, max: nat) returns (error: Option<CollectError>)
      modifies this
      ensures match Walk(node, path, rel, depth, old(View()), max)
        case Ok(g) => error == None && View() == g
        case Err(e) => error == Some(e)
      decreases node
    {
      if depth > MAX_DEPTH {
        return Some(TooDeep);
      }
      match node {
        case Other => return None;
        case Dir(kids, readable) =>
          error := Push(FileEntry(rel, 0, true), path);
          if error.Some? || !readable {
            return;
          }
          var left := kids;
          ghost var g1 := View();
          while left.Cons?
            invariant left == kids || left < kids
            invariant WalkAll(left, path, rel, depth + 1, View(), max) == WalkAll(kids, path, rel, depth + 1, g1, max)
            decreases left
          {
            error := WalkNode(left.node, path + [left.name], rel + "/" + left.name, depth + 1, max);
            if error.Some? {
              return;
            }
            left := left.rest;
          }
          return None;
        case File(bytes) =>
          if total + |bytes| > MAX_U64 {
            return Some(TooMuch(max));
          }
          total := total + |bytes|;
          if max > 0 && total > max {
            return Some(TooMuch(max));
          }
          error := Push(FileEntry(rel, |bytes|, false), path);
      }
    }

    method CollectRoots(disk: Forest, roots: seq<Path>, max: nat) returns (error: Option<CollectError>)
        modifies this
      ensures match Collect(disk, roots, max, old(View()))
        case Ok(g) => error == None && View() == g
        case Err(e) => error == Some(e)
    {
      for i := 0 to |roots|
        invariant Collect(disk, roots[i..], max, View()) == Collect(disk, roots, max, old(View()))
      {
        assert roots[i..][0] == roots[i] && roots[i..][1..] == roots[i + 1..];
        var node := NodeAt(disk, roots[i]);
        if node.Some? {
          error := WalkNode(node.value, roots[i], RootName(roots[i]), 0, max);
          if error.Some? {
            return;
          }
        }
      }
      return None;
    }
  }

  // ---- the tree, listed ------------------------------------------------------------------------------

  /** What a copy of a tree has at a path. */
  datatype Cell = Folder | Regular(bytes: seq<byte>)

  /** The tree below `node` without what is never copied, looked up path by path. */
  function CellAt(node: Node, path: Path): Option<Cell>
    decreases |path|
  {
    match node
    case Other => None
    case File(bytes) => if path == [] then Some(Regular(bytes)) else None
    case Dir(kids, readable) =>
      if path == [] then Some(Folder)
      else if !readable || Child(kids, path[0]).None? then None
      else CellAt(Child(kids, path[0]).value, path[1..])
  }

  /** One line of a listing: where it goes in the copy, what is there, and where it comes from. */
  datatype Line = Line(path: Path, cell: Cell, abs: Path)

  function Listing(node: Node, rel: Path, abs: Path): seq<Line>
    decreases node
  {
    match node
    case Other => []
    case File(bytes) => [Line(rel, Regular(bytes), abs)]
    case Dir(kids, readable) => [Line(rel, Folder, abs)] + (if readable then ListingAll(kids, rel, abs) else [])
  }

  function ListingAll(kids: Forest, rel: Path, abs: Path): seq<Line>
    decreases kids
  {
    match kids
    case Nil => []
    case Cons(name, node, rest) => Listing(node, rel + [name], abs + [name]) + ListingAll(rest, rel, abs)
  }

  function ListingOfRoot(disk: Forest, root: Path): seq<Line> {
    var node := NodeAt(disk, root);
    if node.None? then [] else Listing(node.value, [RootName(root)], root)
  }

  function ListingOfRoots(disk: Forest, roots: seq<Path>): seq<Line>
  {
    if roots == [] then []
    else ListingOfRoot(disk, roots[0]) + ListingOfRoots(disk, roots[1..])
  }

  /** `/`-separated. */
  function Join(path: Path): string
    requires path != []
  {
    if |path| == 1 then path[0] else Join(path[..|path| - 1]) + "/" + path[|path| - 1]
  }

  lemma JoinMore(path: Path, name: string)
    requires path != []
    ensures Join(path + [name]) == Join(path) + "/" + name
  {
    assert (path + [name])[..|path|] == path;
  }

  function EntryOf(line: Line): FileEntry
    requires line.path != []
  {
    FileEntry(Join(line.path), if line.cell.Regular? then |line.cell.bytes| else 0, line.cell.Folder?)
  }

  /** The manifest is the listing: entry by entry, with the source paths and the total beside. */
  predicate Lists(g: Gathered, lines: seq<Line>) {
    && |g.entries| == |g.abs| == |lines|
    && (forall i :: 0 <= i < |lines| ==> lines[i].path != [] && g.entries[i] == EntryOf(lines[i]) && g.abs[i] == lines[i].abs)
    && g.total == SummedBytes(g.entries) <= MAX_U64
  }

  lemma PushLists(g: Gathered, lines: seq<Line>, line: Line)
    requires Lists(g, lines) && line.path != []
    ensures var size := if line.cell.Regular? then |line.cell.bytes| else 0;
      g.total + size <= MAX_U64 ==>
      var r := PushEntry(g.(total := g.total + size), EntryOf(line), line.abs);
      r.Ok? ==> Lists(r.value, lines + [line])
  {
    var entries := g.entries + [EntryOf(line)];
    assert entries[..|g.entries|] == g.entries;
  }

  lemma NoMore(lines: seq<Line>)
    ensures lines + [] == lines
  {
  }

  lemma FileLists(bytes: seq<byte>, rel: Path, abs: Path, depth: nat, g: Gathered, lines: seq<Line>, max: nat)
    requires Lists(g, lines) && rel != [] && depth <= MAX_DEPTH
    ensures var r := Walk(File(bytes), abs, Join(rel), depth, g, max);
      r.Ok? ==> Lists(r.value, lines + [Line(rel, Regular(bytes), abs)])
  {
    PushLists(g, lines, Line(rel, Regular(bytes), abs));
  }

  lemma {:induction false} WalkLists(node: Node, rel: Path, abs: Path, depth: nat, g: Gathered, lines: seq<Line>,
          max: nat)
    requires Lists(g, lines) && rel != []
    ensures var r := Walk(node, abs, Join(rel), depth, g, max); r.Ok? ==> Lists(r.value, lines + Listing(node, rel, abs))
    decreases node
  {
    if depth <= MAX_DEPTH {
      match node
      case Other =>
        NoMore(lines);
      case File(bytes) =>
        FileLists(bytes, rel, abs, depth, g, lines, max);
      case Dir(kids, readable) =>
        var line := Line(rel, Folder, abs);
        PushLists(g, lines, line);
        var g1 := PushEntry(g, EntryOf(line), abs);
        if g1.Ok? && readable {
          WalkAllLists(kids, rel, abs, depth + 1, g1.value, lines + [line], max);
          Regrouped(lines, [line], ListingAll(kids, rel, abs));
        } else {
          NoMore([line]);
        }
    }
  }

  lemma {:induction false} WalkAllLists(kids: Forest, rel: Path, abs: Path, depth: nat, g: Gathered, lines: seq<Line>,
          max: nat)
    requires Lists(g, lines) && rel != []
    ensures var r := WalkAll(kids, abs, Join(rel), depth, g, max); r.Ok? ==> Lists(r.value, lines + ListingAll(kids, rel, abs))
    decreases kids
  {
    match kids
    case Nil =>
      NoMore(lines);
    case Cons(name, node, rest) =>
      var first := Listing(node, rel + [name], abs + [name]);
      JoinMore(rel, name);
      WalkLists(node, rel + [name], abs + [name], depth, g, lines, max);
      var r := Walk(node, abs + [name], Join(rel + [name]), depth, g, max);
      if r.Ok? {
        WalkAllLists(rest, rel, abs, depth, r.value, lines + first, max);
        Regrouped(lines, first, ListingAll(rest, rel, abs));
      }
  }

  lemma OneRootLists(disk: Forest, root: Path, max: nat, g: Gathered, lines: seq<Line>)
    requires Lists(g, lines)
    ensures var r := OneRoot(disk, root, max, g); r.Ok? ==> Lists(r.value, lines + ListingOfRoot(disk, root))
  {
    var node := NodeAt(disk, root);
    if node.None? {
      NoMore(lines);
    } else {
      WalkLists(node.value, [RootName(root)], root, 0, g, lines, max);
    }
  }

  /** A collection that succeeds is exactly the listing of its roots. */
  lemma {:induction false} CollectLists(disk: Forest, roots: seq<Path>, max: nat, g: Gathered, lines: seq<Line>)
    requires Lists(g, lines)
    ensures var r := Collect(disk, roots, max, g); r.Ok? ==> Lists(r.value, lines + ListingOfRoots(disk, roots))
    decreases |roots|
  {
    if roots == [] {
      NoMore(lines);
    } else {
      OneRootLists(disk, roots[0], max, g, lines);
      var g1 := OneRoot(disk, roots[0], max, g);
      if g1.Ok? {
        var first, others := ListingOfRoot(disk, roots[0]), ListingOfRoots(disk, roots[1..]);
        CollectLists(disk, roots[1..], max, g1.value, lines + first);
        Regrouped(lines, first, others);
      }
    }
  }

  // ---- when a collection succeeds ---------------------------------------------------------------

  /** How many folders one goes down at most below `node`: into those that can be read. */
  function Height(node: Node): nat
    decreases node
  {
    if node.Dir? && node.readable then HeightAll(node.kids) else 0
  }

  function HeightAll(kids: Forest): nat
    decreases kids
  {
    match kids
    case Nil => 0
    case Cons(_, node, rest) =>
      var first, others := Height(node) + 1, HeightAll(rest);
      if first > others then first else others
  }

  /** The bytes of the files of a listing. */
  function Bytes(lines: seq<Line>): nat {
    if lines == [] then 0 else (if lines[0].cell.Regular? then |lines[0].cell.bytes| else 0) + Bytes(lines[1..])
  }

  lemma {:induction false} BytesConcat(a: seq<Line>, b: seq<Line>)
    ensures Bytes(a + b) == Bytes(a) + Bytes(b)
  {
    if a == [] {
      assert a + b == b;
    } else {
      assert (a + b)[1..] == a[1..] + b;
      BytesConcat(a[1..], b);
    }
  }

  /** So many bytes are within 64 bits, and within the limit if there is one. */
  predicate FewEnough(total: nat, max: nat) {
    total <= MAX_U64 && (max > 0 ==> total <= max)
  }

  /** `lines` more can be taken, down to `height`. */
  predicate CanTake(g: Gathered, lines: seq<Line>, height: nat, max: nat) {
    height <= MAX_DEPTH && |g.entries| + |lines| <= MAX_ENTRIES && FewEnough(g.total + Bytes(lines), max)
  }

  /** What was taken, or a limit that is exceeded. */
  predicate Took(g: Gathered, r: Result<Gathered, CollectError>, lines: seq<Line>, height: nat, max: nat) {
    match r
    case Ok(g1) => CanTake(g, lines, height, max) && |g1.entries| == |g.entries| + |lines| && g1.total == g.total + Bytes(lines)
    case Err(TooDeep) => height > MAX_DEPTH
    case Err(TooManyEntries) => |g.entries| + |lines| > MAX_ENTRIES
    case Err(TooMuch(limit)) => limit == max && !FewEnough(g.total + Bytes(lines), max)
  }

  lemma TookBoth(g: Gathered, g1: Gathered, r: Result<Gathered, CollectError>, first: seq<Line>, h1: nat, others: seq<Line>,
          h2: nat, max: nat)
    requires Took(g, Ok(g1), first, h1, max) && Took(g1, r, others, h2, max)
    ensures Took(g, r, first + others, if h1 > h2 then h1 else h2, max)
  {
    BytesConcat(first, others);
  }

  lemma TookNoMore(g: Gathered, e: CollectError, first: seq<Line>, h1: nat, others: seq<Line>, h2: nat, max: nat)
    requires Took(g, Err(e), first, h1, max)
    ensures Took(g, Err(e), first + others, if h1 > h2 then h1 else h2, max)
  {
    BytesConcat(first, others);
  }

  lemma {:induction false} WalkTakes(node: Node, rel: Path, abs: Path, name: string, depth: nat, g: Gathered, max: nat)
    requires |g.entries| <= MAX_ENTRIES && FewEnough(g.total, max)
    ensures Took(g, Walk(node, abs, name, depth, g, max), Listing(node, rel, abs), depth + Height(node), max)
    decreases node
  {
    if depth <= MAX_DEPTH && node.Dir? {
      var here := [Line(rel, Folder, abs)];
      var g1 := PushEntry(g, FileEntry(name, 0, true), abs);
      assert here[1..] == [];
      if node.readable {
        var others, height := ListingAll(node.kids, rel, abs), depth + HeightAll(node.kids);
        if g1.Ok? {
          WalkAllTakes(node.kids, rel, abs, name, depth + 1, g1.value, max);
          TookBoth(g, g1.value, WalkAll(node.kids, abs, name, depth + 1, g1.value, max), here, depth, others, height, max);
        } else {
          TookNoMore(g, g1.error, here, depth, others, height, max);
        }
      } else {
        NoMore(here);
      }
    } else if node.File? {
      assert [Line(rel, Regular(node.bytes), abs)][1..] == [];
    }
  }

  /** `depth` is that of the kids: one more than that of the folder that holds them. */
  lemma {:induction false} WalkAllTakes(kids: Forest, rel: Path, abs: Path, name: string, depth: nat, g: Gathered, max: nat)
    requires |g.entries| <= MAX_ENTRIES && FewEnough(g.total, max) && 1 <= depth <= MAX_DEPTH + 1
    ensures Took(g, WalkAll(kids, abs, name, depth, g, max), ListingAll(kids, rel, abs), depth - 1 + HeightAll(kids), max)
    decreases kids
  {
    if kids.Cons? {
      var first, others := Listing(kids.node, rel + [kids.name], abs + [kids.name]), ListingAll(kids.rest, rel, abs);
      var h1, h2 := depth + Height(kids.node), depth - 1 + HeightAll(kids.rest);
      var r := Walk(kids.node, abs + [kids.name], name + "/" + kids.name, depth, g, max);
      WalkTakes(kids.node, rel + [kids.name], abs + [kids.name], name + "/" + kids.name, depth, g, max);
      if r.Ok? {
        WalkAllTakes(kids.rest, rel, abs, name, depth, r.value, max);
        TookBoth(g, r.value, WalkAll(kids.rest, abs, name, depth, r.value, max), first, h1, others, h2, max);
      } else {
        TookNoMore(g, r.error, first, h1, others, h2, max);
      }
    }
  }

  /** How far down one goes below the roots that are there. */
  function HeightOfRoots(disk: Forest, roots: seq<Path>): nat {
    if roots == [] then 0
    else
      var node, others := NodeAt(disk, roots[0]), HeightOfRoots(disk, roots[1..]);
      if node.Some? && Height(node.value) > others then Height(node.value) else others
  }

  lemma {:induction false} CollectTakes(disk: Forest, roots: seq<Path>, max: nat, g: Gathered)
    requires |g.entries| <= MAX_ENTRIES && FewEnough(g.total, max)
    ensures Took(g, Collect(disk, roots, max, g), ListingOfRoots(disk, roots), HeightOfRoots(disk, roots), max)
    decreases |roots|
  {
    if roots != [] {
      var node, r := NodeAt(disk, roots[0]), OneRoot(disk, roots[0], max, g);
      var first, others := ListingOfRoot(disk, roots[0]), ListingOfRoots(disk, roots[1..]);
      var h1, h2 := if node.Some? then Height(node.value) else 0, HeightOfRoots(disk, roots[1..]);
      if node.Some? {
        WalkTakes(node.value, [RootName(roots[0])], roots[0], RootName(roots[0]), 0, g, max);
      }
      assert Took(g, r, first, h1, max);
      if r.Ok? {
        CollectTakes(disk, roots[1..], max, r.value);
        TookBoth(g, r.value, Collect(disk, roots[1..], max, r.value), first, h1, others, h2, max);
      } else {
        TookNoMore(g, r.error, first, h1, others, h2, max);
      }
    }
  }

  /** A collection succeeds exactly if nothing lies too deep, there are not too many entries, and the
      files come to no more bytes than the limit and 64 bits allow; and where it fails, it names a limit
      that is exceeded. */
  lemma CollectSucceedsExactly(disk: Forest, roots: seq<Path>, max: nat)
    ensures var lines, height, r := ListingOfRoots(disk, roots), HeightOfRoots(disk, roots), Collect(disk, roots, max, NOTHING);
      && (r.Ok? <==> height <= 32 && |lines| <= 10_000 && FewEnough(Bytes(lines), max))
      && (r == Err(TooDeep) ==> height > 32) && (r == Err(TooManyEntries) ==> |lines| > 10_000)
      && (r.Err? && r.error.TooMuch? ==> r.error.max == max && !FewEnough(Bytes(lines), max))
  {
    CollectTakes(disk, roots, max, NOTHING);
  }

  // ---- the listing is the tree ---------------------------------------------------------------------------

  predicate Has(lines: seq<Line>, path: Path, cell: Cell) {
    exists l | l in lines :: l.path == path && l.cell == cell
  }

  lemma HasConcat(a: seq<Line>, b: seq<Line>, path: Path, cell: Cell)
    ensures Has(a + b, path, cell) <==> Has(a, path, cell) || Has(b, path, cell)
  {
  }

  /** Every line lies below `rel`. */
  lemma {:induction false} ListingBelow(node: Node, rel: Path, abs: Path)
    ensures forall l | l in Listing(node, rel, abs) :: rel <= l.path
    decreases node
  {
    if node.Dir? && node.readable {
      ListingAllBelow(node.kids, rel, abs);
    }
  }

  lemma {:induction false} ListingAllBelow(kids: Forest, rel: Path, abs: Path)
    ensures forall l | l in ListingAll(kids, rel, abs) :: rel < l.path && Child(kids, l.path[|rel|]).Some?
    decreases kids
  {
    if kids.Cons? {
      ListingBelow(kids.node, rel + [kids.name], abs + [kids.name]);
      ListingAllBelow(kids.rest, rel, abs);
      assert forall l | l in Listing(kids.node, rel + [kids.name], abs + [kids.name]) :: rel + [kids.name] <= l.path && l.path[|rel|] == kids.name;
    }
  }

  /** A listing has a cell at a path iff looking the path up in the tree finds that cell. */
  lemma {:induction false} ListingIsTree(node: Node, rel: Path, abs: Path, path: Path, cell: Cell)
    requires SaneNode(node)
    ensures Has(Listing(node, rel, abs), rel + path, cell) <==> CellAt(node, path) == Some(cell)
    decreases node
  {
    assert rel + [] == rel;
    match node
    case Other =>
    case File(bytes) =>
      assert Listing(node, rel, abs)[0] == Line(rel, Regular(bytes), abs);
    case Dir(kids, readable) =>
      var head, tail := [Line(rel, Folder, abs)], if readable then ListingAll(kids, rel, abs) else [];
      HasConcat(head, tail, rel + path, cell);
      assert head[0] in head;
      if readable {
        ListingAllBelow(kids, rel, abs);
        if path != [] {
          ListingAllIsTree(kids, rel, abs, path, cell);
        }
      }
  }

  lemma {:induction false} ListingAllIsTree(kids: Forest, rel: Path, abs: Path, path: Path, cell: Cell)
    requires Sane(kids) && path != []
    ensures Has(ListingAll(kids, rel, abs), rel + path, cell)
        <==> Child(kids, path[0]).Some? && CellAt(Child(kids, path[0]).value, path[1..]) == Some(cell)
    decreases kids
  {
    if kids.Cons? {
      var below := rel + [kids.name];
      var first, others := Listing(kids.node, below, abs + [kids.name]), ListingAll(kids.rest, rel, abs);
      HasConcat(first, others, rel + path, cell);
      ListingAllIsTree(kids.rest, rel, abs, path, cell);
      if kids.name == path[0] {
        assert rel + path == below + path[1..];
        ListingIsTree(kids.node, below, abs + [kids.name], path[1..], cell);
        assert !Has(others, rel + path, cell) by { ListingAllBelow(kids.rest, rel, abs); }
      } else {
        ListingBelow(kids.node, below, abs + [kids.name]);
        assert !Has(first, rel + path, cell) by {
          assert forall l | l in first :: l.path[|rel|] == kids.name && (rel + path)[|rel|] == path[0];
        }
      }
    }
  }

  // ---- names, sources and order -----------------------------------------------------------------------------

  lemma {:induction false} ChildIsSane(f: Forest, name: string)
    requires Sane(f) && Child(f, name).Some?
    ensures IsName(name) && SaneNode(Child(f, name).value)
  {
    if f.name != name {
      ChildIsSane(f.rest, name);
    }
  }

  lemma {:induction false} NodeAtIsSane(f: Forest, path: Path)
    requires Sane(f) && NodeAt(f, path).Some?
    ensures SaneNode(NodeAt(f, path).value) && forall part | part in path :: IsName(part)
    decreases |path|
  {
    if path != [] {
      ChildIsSane(f, path[0]);
      if |path| > 1 {
        NodeAtIsSane(Child(f, path[0]).value.kids, path[1..]);
      }
      assert forall part | part in path :: part == path[0] || part in path[1..];
    }
  }

  lemma {:induction false} NodeAtMore(f: Forest, path: Path, name: string)
    requires NodeAt(f, path).Some? && NodeAt(f, path).value.Dir?
    ensures NodeAt(f, path + [name]) == Child(NodeAt(f, path).value.kids, name)
    decreases |path|
  {
    if path != [] {
      assert (path + [name])[1..] == path[1..] + [name];
      if |path| == 1 {
        assert path[1..] == [];
      }
      NodeAtMore(Child(f, path[0]).value.kids, path[1..], name);
    }
  }

  /** The line's bytes are what the disk has at its source. */
  predicate Sourced(disk: Forest, l: Line) {
    l.cell.Regular? ==> NodeAt(disk, l.abs) == Some(File(l.cell.bytes))
  }

  predicate Named(l: Line) {
    l.path != [] && forall part | part in l.path :: IsName(part)
  }

  /** Its folder is already among `have`, unless it goes at the top. */
  predicate ParentIn(have: seq<Line>, l: Line) {
    |l.path| == 1 || (|l.path| > 1 && Has(have, l.path[..|l.path| - 1], Folder))
  }

  /** Every folder comes before what is in it. */
  predicate FoldersFirst(have: seq<Line>, lines: seq<Line>)
    decreases |lines|
  {
    lines == [] || (ParentIn(have, lines[0]) && FoldersFirst(have + [lines[0]], lines[1..]))
  }

  lemma {:induction false} FoldersFirstConcat(have: seq<Line>, a: seq<Line>, b: seq<Line>)
    requires FoldersFirst(have, a) && FoldersFirst(have + a, b)
    ensures FoldersFirst(have, a + b)
    decreases |a|
  {
    if a == [] {
      assert have + a == have && a + b == b;
    } else {
      assert have + [a[0]] + a[1..] == have + a;
      FoldersFirstConcat(have + [a[0]], a[1..], b);
      assert (a + b)[1..] == a[1..] + b;
    }
  }

  /** What the listing below one node promises, given what was listed before it. */
  lemma {:induction false} ListingIsGood(disk: Forest, node: Node, rel: Path, abs: Path, have: seq<Line>)
    requires NodeAt(disk, abs) == Some(node) && SaneNode(node)
    requires Named(Line(rel, Folder, abs)) && ParentIn(have, Line(rel, Folder, abs))
    ensures var lines := Listing(node, rel, abs);
      FoldersFirst(have, lines) && forall l | l in lines :: Named(l) && Sourced(disk, l)
    decreases node
  {
    match node
    case Other =>
    case File(bytes) =>
      assert Listing(node, rel, abs)[1..] == [];
    case Dir(kids, readable) =>
      var head := Line(rel, Folder, abs);
      assert [head][1..] == [] && [head][0] == head;
      if readable {
        assert Has(have + [head], rel, Folder) by { assert (have + [head])[|have|] == head; }
        ListingAllIsGood(disk, kids, kids, rel, abs, have + [head]);
        FoldersFirstConcat(have, [head], ListingAll(kids, rel, abs));
      }
  }

  lemma {:induction false} ListingAllIsGood(disk: Forest, all: Forest, kids: Forest, rel: Path, abs: Path,
          have: seq<Line>)
    requires NodeAt(disk, abs).Some? && NodeAt(disk, abs).value.Dir? && NodeAt(disk, abs).value.kids == all
    requires Sane(kids) && (forall n: string :: Child(kids, n).Some? ==> Child(all, n) == Child(kids, n))
    requires Named(Line(rel, Folder, abs)) && Has(have, rel, Folder)
    ensures var lines := ListingAll(kids, rel, abs);
      FoldersFirst(have, lines) && forall l | l in lines :: Named(l) && Sourced(disk, l)
    decreases kids
  {
    if kids.Cons? {
      var below := rel + [kids.name];
      var first, others := Listing(kids.node, below, abs + [kids.name]), ListingAll(kids.rest, rel, abs);
      NodeAtMore(disk, abs, kids.name);
      assert Child(kids, kids.name) == Some(kids.node);
      assert below[..|below| - 1] == rel;
      ListingIsGood(disk, kids.node, below, abs + [kids.name], have);
      HasConcat(have, first, rel, Folder);
      ListingAllIsGood(disk, all, kids.rest, rel, abs, have + first);
      FoldersFirstConcat(have, first, others);
    }
  }

  /** For every disk and every choice of roots: in the listing each folder comes before its contents,
      every name is a name, and every file's bytes are those at its source. */
  lemma {:induction false} ListingOfRootsIsGood(disk: Forest, roots: seq<Path>, have: seq<Line>)
    requires Sane(disk)
    ensures var lines := ListingOfRoots(disk, roots);
      FoldersFirst(have, lines) && forall l | l in lines :: Named(l) && Sourced(disk, l)
    decreases |roots|
  {
    if roots != [] {
      var root := roots[0];
      var node := NodeAt(disk, root);
      var first := ListingOfRoot(disk, root);
      if node.Some? {
        NodeAtIsSane(disk, root);
        assert Named(Line([RootName(root)], Folder, root));
        ListingIsGood(disk, node.value, [RootName(root)], root, have);
      }
      ListingOfRootsIsGood(disk, roots[1..], have + first);
      FoldersFirstConcat(have, first, ListingOfRoots(disk, roots[1..]));
    }
  }

  // ---- what a copy of the roots must hold, by looking paths up -------------------------------------------------

  /** Some root of that name holds `cell` at the rest of the path. */
  predicate Copied(disk: Forest, roots: seq<Path>, path: Path, cell: Cell)
    requires path != []
  {
    exists r | r in roots :: Holds(disk, r, path, cell)
  }

  predicate Holds(disk: Forest, root: Path, path: Path, cell: Cell)
    requires path != []
  {
    RootName(root) == path[0] && NodeAt(disk, root).Some? && CellAt(NodeAt(disk, root).value, path[1..]) == Some(cell)
  }

  lemma {:induction false} ListingOfRootsIsCopied(disk: Forest, roots: seq<Path>, path: Path, cell: Cell)
    requires Sane(disk) && path != []
    ensures Has(ListingOfRoots(disk, roots), path, cell) <==> Copied(disk, roots, path, cell)
    decreases |roots|
  {
    if roots != [] {
      var root := roots[0];
      HasConcat(ListingOfRoot(disk, root), ListingOfRoots(disk, roots[1..]), path, cell);
      ListingOfRootsIsCopied(disk, roots[1..], path, cell);
      assert forall r :: r in roots <==> r == root || r in roots[1..];
      ListingOfRootIsHeld(disk, root, path, cell);
    }
  }

  lemma ListingOfRootIsHeld(disk: Forest, root: Path, path: Path, cell: Cell)
    requires Sane(disk) && path != []
    ensures Has(ListingOfRoot(disk, root), path, cell) <==> Holds(disk, root, path, cell)
  {
    var rel, node := [RootName(root)], NodeAt(disk, root);
    if node.Some? {
      NodeAtIsSane(disk, root);
      if RootName(root) == path[0] {
        assert rel + path[1..] == path;
        ListingIsTree(node.value, rel, root, path[1..], cell);
      } else {
        ListingBelow(node.value, rel, root);
      }
    }
  }

  /** The roots that are there and are copied, in order. */
  function KeptRoots(disk: Forest, roots: seq<Path>): seq<Path> {
    if roots == [] then [] else KeptRoot(disk, roots[0]) + KeptRoots(disk, roots[1..])
  }

  /** The paths of the lines that go at the top. */
  function Tops(lines: seq<Line>): seq<Path> {
    if lines == [] then []
    else (if |lines[0].path| == 1 then [lines[0].path] else []) + Tops(lines[1..])
  }

  lemma {:induction false} TopsConcat(a: seq<Line>, b: seq<Line>)
    ensures Tops(a + b) == Tops(a) + Tops(b)
    decreases |a|
  {
    if a == [] {
      assert a + b == b;
    } else {
      assert (a + b)[1..] == a[1..] + b;
      TopsConcat(a[1..], b);
    }
  }

  lemma {:induction false} TopsBelow(lines: seq<Line>)
    requires forall l | l in lines :: |l.path| > 1
    ensures Tops(lines) == []
    decreases |lines|
  {
    if lines != [] {
      assert lines[0] in lines;
      TopsBelow(lines[1..]);
    }
  }

  function KeptRoot(disk: Forest, root: Path): seq<Path> {
    var node := NodeAt(disk, root);
    if node.Some? && !node.value.Other? then [[RootName(root)]] else []
  }

  lemma TopOfRoot(disk: Forest, root: Path)
    ensures Tops(ListingOfRoot(disk, root)) == KeptRoot(disk, root)
  {
    var rel, node := [RootName(root)], NodeAt(disk, root);
    if node.Some? && !node.value.Other? {
      var lines := ListingOfRoot(disk, root);
      assert lines[0].path == rel;
      if node.value.Dir? && node.value.readable {
        ListingAllBelow(node.value.kids, rel, root);
        assert lines[1..] == ListingAll(node.value.kids, rel, root);
      }
      TopsBelow(lines[1..]);
    }
  }

  /** The top lines of a listing are exactly the kept roots. */
  lemma {:induction false} TopsAreKeptRoots(disk: Forest, roots: seq<Path>)
    ensures Tops(ListingOfRoots(disk, roots)) == KeptRoots(disk, roots)
    decreases |roots|
  {
    if roots != [] {
      TopsConcat(ListingOfRoot(disk, roots[0]), ListingOfRoots(disk, roots[1..]));
      TopOfRoot(disk, roots[0]);
      TopsAreKeptRoots(disk, roots[1..]);
    }
  }
}
