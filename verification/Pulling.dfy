/** Serving a copied tree in bounded slices (`FileOwner` in `geserdesk-clipboard/src/files.rs`) and
    putting it together again on another machine's disk (`geserdesk-clipboard/src/pull.rs`). */
module Pulling {
  import opened Wrappers
  import Framing
  import opened FileTrees
  import opened Staging

  const MAX_READ_LEN: nat := 1024 * 1024

  // ---- the owner ---------------------------------------------------------------------------------------

  datatype FileReadError = NotFound | Denied | Changed | Superseded

  datatype FileReadResult = Data(bytes: seq<Framing.byte>) | Refused(error: FileReadError)

  datatype Serving = Serving(seqNo: nat, entries: seq<FileEntry>, abs: seq<Path>)

  function Min(a: nat, b: nat): nat {
    if a <= b then a else b
  }

  /** `read_at`: the file must still be there with the size that was announced. */
  function ReadAt(disk: Forest, path: Path, entry: FileEntry, offset: nat, len: nat): FileReadResult {
    var node := NodeAt(disk, path);
    if node.None? || !node.value.File? || |node.value.bytes| != entry.size || offset > entry.size then Refused(Changed)
    else Data(node.value.bytes[offset..offset + Min(Min(len, MAX_READ_LEN), entry.size - offset)])
  }

  function Answer(current: Option<Serving>, disk: Forest, seqNo: nat, index: nat, offset: nat,
          len: nat): FileReadResult {
    if current.None? then Refused(NotFound)
    else
      var s := current.value;
      if s.seqNo != seqNo then Refused(Superseded)
      else if index >= |s.entries| then Refused(NotFound)
      else if s.entries[index].dir then Refused(Denied)
      else if index >= |s.abs| then Refused(NotFound)
      else ReadAt(disk, s.abs[index], s.entries[index], offset, len)
  }

  class FileOwner {
    var current: Option<Serving>

    constructor ()
      ensures current == None
    {
      current := None;
    }

    method Set(seqNo: nat, entries: seq<FileEntry>, abs: seq<Path>)
      modifies this
      ensures current == Some(Serving(seqNo, entries, abs))
    {
      current := Some(Serving(seqNo, entries, abs));
    }

    method Clear()
      modifies this
      ensures current == None
    {
      current := None;
    }

    method Read(disk: Forest, seqNo: nat, index: nat, offset: nat, len: nat) returns (r: FileReadResult)
      ensures r == Answer(current, disk, seqNo, index, offset, len)
      ensures r.Data? ==> |r.bytes| <= MAX_READ_LEN && |r.bytes| <= len
    {
      if current.None? {
        return Refused(NotFound);
      }
      var s := current.value;
      if s.seqNo != seqNo {
        return Refused(Superseded);
      }
      if index >= |s.entries| {
        return Refused(NotFound);
      }
      if s.entries[index].dir {
        return Refused(Denied);
      }
      if index >= |s.abs| {
        return Refused(NotFound);
      }
      return ReadAt(disk, s.abs[index], s.entries[index], offset, len);
    }
  }

  datatype OwnerUse = Announces(serving: Serving) | Clears

  function ServedAfter(uses: seq<OwnerUse>): Option<Serving> {
    if uses == [] || uses[|uses| - 1].Clears? then None else Some(uses[|uses| - 1].serving)
  }

  /** Data is served of the copy announced last, and only while nothing replaced or cleared it; any
      other number is told that it is over. */
  lemma OnlyTheLastCopyIsServed(uses: seq<OwnerUse>, disk: Forest, seqNo: nat, index: nat, offset: nat, len: nat)
    ensures var r := Answer(ServedAfter(uses), disk, seqNo, index, offset, len);
      && (r.Data? ==> uses != [] && uses[|uses| - 1].Announces? && uses[|uses| - 1].serving.seqNo == seqNo)
      && (r == Refused(Superseded) <==> uses != [] && uses[|uses| - 1].Announces? && uses[|uses| - 1].serving.seqNo != seqNo)
  {
  }

  /** The number is that of the copy served, and the index that of a file in it. */
  predicate Offers(current: Option<Serving>, seqNo: nat, index: nat) {
    && current.Some? && current.value.seqNo == seqNo
    && index < |current.value.entries| && index < |current.value.abs| && !current.value.entries[index].dir
  }

  /** That file is still there as it was announced: a file, and of that size. */
  predicate AsAnnounced(s: Serving, disk: Forest, index: nat)
    requires index < |s.entries| && index < |s.abs|
  {
    match NodeAt(disk, s.abs[index])
    case Some(File(bytes)) => |bytes| == s.entries[index].size
    case _ => false
  }

  /** Data is served exactly of a file of the copy that is still as announced, from an offset in it on;
      and then it is what the file holds there: as much as was asked for, or the cap, or up to the end.
      If the copy has the file, and that is not so, the answer is that it changed. */
  lemma ServedIsTheFile(current: Option<Serving>, disk: Forest, seqNo: nat, index: nat, offset: nat, len: nat)
    ensures var r := Answer(current, disk, seqNo, index, offset, len);
      && (r.Data? <==> Offers(current, seqNo, index) && AsAnnounced(current.value, disk, index)
                       && offset <= current.value.entries[index].size)
      && (r.Data? ==>
            var whole := NodeAt(disk, current.value.abs[index]).value.bytes;
            && r.bytes <= whole[offset..] && |r.bytes| <= len && |r.bytes| <= 0x10_0000
            && (|r.bytes| == len || |r.bytes| == 0x10_0000 || r.bytes == whole[offset..]))
      && (r == Refused(Changed) <==> Offers(current, seqNo, index) && !r.Data?)
      && (r == Refused(Denied) <==>
            && current.Some? && current.value.seqNo == seqNo
            && index < |current.value.entries| && current.value.entries[index].dir)
  {
  }

  // ---- the disk it is copied to -------------------------------------------------------------------------------

  type Store = map<Path, Cell>

  function Parent(path: Path): Path
    requires path != []
  {
    path[..|path| - 1]
  }

  predicate IsFolder(d: Store, path: Path) {
    path == [] || (path in d && d[path].Folder?)
  }

  /** Creates the folder and whichever of its ancestors are missing. */
  function CreateDirAll(d: Store, path: Path): Option<Store>
    decreases |path|
  {
    if IsFolder(d, path) then Some(d)
    else if path in d then None
    else
      match CreateDirAll(d, Parent(path))
      case None => None
      case Some(d1) => Some(d1[path := Folder])
  }

  /** A new empty file, or an old one emptied. */
  function CreateFile(d: Store, path: Path): Option<Store>
    requires path != []
  {
    if !IsFolder(d, Parent(path)) || IsFolder(d, path) then None else Some(d[path := Regular([])])
  }

  function RemoveAll(d: Store, path: Path): Store {
    map p | p in d && !(path <= p) :: d[p]
  }

  // ---- the pull ---------------------------------------------------------------------------------------------

  datatype PullError = Sanitize(fault: SanitizeError) | TooLarge(max: nat) | ReadFailed(error: FileReadError)
    | ShortRead | Timeout | Cancelled | Io(path: Path)

  /** Everything the outside decides during one pull. A pull asks for each (index, offset) at most
      once and comes to each entry once, so tables lose nothing. `None` from `read`: no answer in
      time. */
  datatype Env = Env(
    read: (nat, nat, nat) -> Option<FileReadResult>,
    stopped: bool,
    stoppedAt: nat -> bool,
    stoppedIn: (nat, nat) -> bool,
    destFails: bool,
    makeFails: nat -> bool,
    writeFails: (nat, nat) -> bool,
    flushFails: nat -> bool)

  datatype Pulled = Pulled(disk: Store, error: Option<PullError>)

  function PullFile(env: Env, index: nat, size: nat, offset: nat, path: Path, d: Store): (r: Pulled)
    requires path in d && d[path].Regular?
    ensures r.disk.Keys == d.Keys && path in r.disk && r.disk[path].Regular?
    ensures forall p | p in d && p != path :: r.disk[p] == d[p]
    decreases if offset < size then size - offset else 0
  {
    if offset >= size then Pulled(d, if env.flushFails(index) then Some(Io(path)) else None)
    else if env.stoppedIn(index, offset) then Pulled(d, Some(Cancelled))
    else
      match env.read(index, offset, Min(size - offset, MAX_READ_LEN))
      case None => Pulled(d, Some(Timeout))
      case Some(Refused(e)) => Pulled(d, Some(ReadFailed(e)))
      case Some(Data(bytes)) =>
        if bytes == [] then Pulled(d, Some(ShortRead))
        else if env.writeFails(index, offset) then Pulled(d, Some(Io(path)))
        else PullFile(env, index, size, offset + |bytes|, path, d[path := Regular(d[path].bytes + bytes)])
  }

  function PullOne(env: Env, entry: FileEntry, path: Path, index: nat, d: Store): Pulled
    requires path != []
  {
    if env.stoppedAt(index) then Pulled(d, Some(Cancelled))
    else
      var made := if entry.dir then CreateDirAll(d, path) else CreateFile(d, path);
      if env.makeFails(index) || made.None? then Pulled(d, Some(Io(path)))
      else if entry.dir then Pulled(made.value, None)
      else PullFile(env, index, entry.size, 0, path, made.value)
  }

  function PullInto(env: Env, entries: seq<FileEntry>, paths: seq<Path>, index: nat, d: Store): Pulled
    requires |paths| == |entries| && forall i :: 0 <= i < |paths| ==> paths[i] != []
    decreases |entries|
  {
    if entries == [] then Pulled(d, None)
    else
      var r := PullOne(env, entries[0], paths[0], index, d);
      if r.error.Some? then r else PullInto(env, entries[1..], paths[1..], index + 1, r.disk)
  }

  /** The paths of the entries whose names hold no separator. */
  function TopLevel(entries: seq<FileEntry>, paths: seq<Path>): seq<Path>
    requires |paths| == |entries|
  {
    if entries == [] then []
    else (if '/' in entries[0].path then [] else [paths[0]]) + TopLevel(entries[1..], paths[1..])
  }

  datatype Outcome = Outcome(disk: Store, result: Result<seq<Path>, PullError>)

  function Pull(env: Env, entries: seq<FileEntry>, dest: Path, max: nat, lower: string -> string, d: Store): Outcome {
    if max > 0 && TotalBytes(entries) > max then Outcome(d, Err(TooLarge(max)))
    else
      SanitizeAccepts(entries, dest, lower, {});
      match SanitizeManifest(entries, dest, lower)
      case Err(e) => Outcome(d, Err(Sanitize(e)))
      case Ok(paths) =>
        if env.stopped then Outcome(d, Err(Cancelled))
        else if env.destFails || CreateDirAll(d, dest).None? then Outcome(d, Err(Io(dest)))
        else
          var r := PullInto(env, entries, paths, 0, CreateDirAll(d, dest).value);
          if r.error.None? then Outcome(r.disk, Ok(TopLevel(entries, paths)))
          else Outcome(RemoveAll(r.disk, dest), Err(r.error.value))
  }

  /** The receiving machine's disk, changed in place. */
  class FileSystem {
    var cells: Store

    method MakeFolders(path: Path) returns (ok: bool)
      modifies this
      ensures ok == CreateDirAll(old(cells), path).Some?
      ensures cells == if ok then CreateDirAll(old(cells), path).value else old(cells)
      decreases |path|
    {
      if IsFolder(cells, path) {
        return true;
      }
      if path in cells {
        return false;
      }
      ok := MakeFolders(Parent(path));
      if ok {
        cells := cells[path := Folder];
      }
    }

    method MakeFile(path: Path) returns (ok: bool)
      requires path != []
      modifies this
      ensures ok == CreateFile(old(cells), path).Some?
      ensures cells == if ok then CreateFile(old(cells), path).value else old(cells)
    {
      ok := IsFolder(cells, Parent(path)) && !IsFolder(cells, path);
      if ok {
        cells := cells[path := Regular([])];
      }
    }

    /** The inner loop of `pull_into`: one file, slice by slice. */
    method FetchFile(env: Env, index: nat, size: nat, path: Path) returns (error: Option<PullError>)
      requires path in cells && cells[path].Regular?
      modifies this
      ensures PullFile(env, index, size, 0, path, old(cells)) == Pulled(cells, error)
    {
      var offset := 0;
      ghost var whole := PullFile(env, index, size, 0, path, cells);
      while offset < size
        invariant path in cells && cells[path].Regular?
        invariant PullFile(env, index, size, offset, path, cells) == whole
        decreases if offset < size then size - offset else 0
      {
        if env.stoppedIn(index, offset) {
          return Some(Cancelled);
        }
        var chunk := env.read(index, offset, Min(size - offset, MAX_READ_LEN));
        match chunk {
          case None => return Some(Timeout);
          case Some(Refused(e)) => return Some(ReadFailed(e));
          case Some(Data(bytes)) =>
            if bytes == [] {
              return Some(ShortRead);
            }
            if env.writeFails(index, offset) {
              return Some(Io(path));
            }
            cells := cells[path := Regular(cells[path].bytes + bytes)];
            offset := offset + |bytes|;
        }
      }
      return if env.flushFails(index) then Some(Io(path)) else None;
    }

    /** `pull_into`. */
    method FetchAll(env: Env, entries: seq<FileEntry>, paths: seq<Path>) returns (error: Option<PullError>)
      requires |paths| == |entries| && forall i :: 0 <= i < |paths| ==> paths[i] != []
      modifies this
      ensures PullInto(env, entries, paths, 0, old(cells)) == Pulled(cells, error)
    {
      assert entries[0..] == entries && paths[0..] == paths;
      for i := 0 to |entries|
        invariant PullInto(env, entries[i..], paths[i..], i, cells) == PullInto(env, entries, paths, 0, old(cells))
      {
        assert entries[i..][1..] == entries[i + 1..] && paths[i..][1..] == paths[i + 1..];
        if env.stoppedAt(i) {
          return Some(Cancelled);
        }
        if entries[i].dir {
          var made := !env.makeFails(i);
          if made {
            made := MakeFolders(paths[i]);
          }
          if !made {
            return Some(Io(paths[i]));
          }
        } else {
          var made := !env.makeFails(i);
          if made {
            made := MakeFile(paths[i]);
          }
          if !made {
            return Some(Io(paths[i]));
          }
          error := FetchFile(env, i, entries[i].size, paths[i]);
          if error.Some? {
            return;
          }
        }
      }
      return None;
    }

    /** `pull_with_options`. */
    method PullTree(env: Env, entries: seq<FileEntry>, dest: Path, max: nat, lower: string -> string)
      returns (result: Result<seq<Path>, PullError>)
      modifies this
      ensures Pull(env, entries, dest, max, lower, old(cells)) == Outcome(cells, result)
    {
      if max > 0 && TotalBytes(entries) > max {
        return Err(TooLarge(max));
      }
      var resolved := SanitizeManifestLoop(entries, dest, lower);
      if resolved.Err? {
        return Err(Sanitize(resolved.error));
      }
      SanitizeAccepts(entries, dest, lower, {});
      if env.stopped {
        return Err(Cancelled);
      }
      var made := !env.destFails;
      if made {
        made := MakeFolders(dest);
      }
      if !made {
        return Err(Io(dest));
      }
      var error := FetchAll(env, entries, resolved.value);
      if error.Some? {
        cells := RemoveAll(cells, dest);
        return Err(error.value);
      }
      return Ok(TopLevel(entries, resolved.value));
    }
  }

  // ---- the size limit -----------------------------------------------------------------------------------

  /** The limit refuses exactly the manifests that are too large, but for those whose sizes add up to
      more than 64 bits hold and to no more than the limit in what is left of them. */
  lemma LimitRefusesExactly(env: Env, entries: seq<FileEntry>, dest: Path, max: nat, lower: string -> string, d: Store)
    requires 0 < max <= MAX_U64
    ensures var refused := Pull(env, entries, dest, max, lower, d).result == Err(PullError.TooLarge(max));
      && (SummedBytes(entries) <= max ==> !refused)
      && (SummedBytes(entries) > max ==>
          (refused <==> !(SummedBytes(entries) > MAX_U64 && Wrapped(SummedBytes(entries)) <= max)))
  {
    SanitizeAccepts(entries, dest, lower, {});
    var paths := SanitizeManifest(entries, dest, lower);
    if paths.Ok? && CreateDirAll(d, dest).Some? {
      NeverTooLarge(env, entries, paths.value, 0, CreateDirAll(d, dest).value);
    }
  }

  lemma {:induction false} NeverTooLarge(env: Env, entries: seq<FileEntry>, paths: seq<Path>, index: nat, d: Store)
    requires |paths| == |entries| && forall i :: 0 <= i < |paths| ==> paths[i] != []
    ensures var e := PullInto(env, entries, paths, index, d).error; e.Some? ==> !e.value.TooLarge?
    decreases |entries|
  {
    if entries != [] {
      if !entries[0].dir && CreateFile(d, paths[0]).Some? {
        FileNeverTooLarge(env, index, entries[0].size, 0, paths[0], CreateFile(d, paths[0]).value);
      }
      NeverTooLarge(env, entries[1..], paths[1..], index + 1, PullOne(env, entries[0], paths[0], index, d).disk);
    }
  }

  lemma {:induction false} FileNeverTooLarge(env: Env, index: nat, size: nat, offset: nat, path: Path, d: Store)
    requires path in d && d[path].Regular?
    ensures var e := PullFile(env, index, size, offset, path, d).error; e.Some? ==> !e.value.TooLarge?
    decreases if offset < size then size - offset else 0
  {
    if offset < size && !env.stoppedIn(index, offset) {
      var r := env.read(index, offset, Min(size - offset, MAX_READ_LEN));
      if r.Some? && r.value.Data? && r.value.bytes != [] && !env.writeFails(index, offset) {
        FileNeverTooLarge(env, index, size, offset + |r.value.bytes|, path, d[path := Regular(d[path].bytes + r.value.bytes)]);
      }
    }
  }

  /** There are such manifests: two files said to hold half of 64 bits each add up to nothing. */
  lemma HalvesAddUpToNothing(entries: seq<FileEntry>)
    requires entries == [FileEntry("a", 0x8000_0000_0000_0000, false), FileEntry("b", 0x8000_0000_0000_0000, false)]
    ensures TotalBytes(entries) == 0 && SummedBytes(entries) == MAX_U64 + 1
  {
    var first := entries[..1];
    assert first == [entries[0]] && first[..0] == [] && SummedBytes(first[..0]) == 0;
    assert SummedBytes(first) == 0x8000_0000_0000_0000;
  }

  // ---- nothing outside the destination, and nothing left behind -------------------------------------------------

  /** Away from `dest` the two disks are the same. */
  ghost predicate SameOutside(a: Store, b: Store, dest: Path) {
    forall p :: !(dest <= p) ==> (p in a <==> p in b) && (p in a ==> a[p] == b[p])
  }

  lemma {:induction false} FoldersBelow(d: Store, path: Path, dest: Path)
    requires dest <= path && IsFolder(d, dest) && CreateDirAll(d, path).Some?
    ensures var d1 := CreateDirAll(d, path).value; SameOutside(d, d1, dest) && IsFolder(d1, dest)
    decreases |path|
  {
    if path != dest && !IsFolder(d, path) {
      assert |dest| < |path|;
      FoldersBelow(d, Parent(path), dest);
    }
  }

  lemma OneStaysInside(env: Env, entry: FileEntry, path: Path, index: nat, d: Store, dest: Path)
    requires dest < path && IsFolder(d, dest)
    ensures var r := PullOne(env, entry, path, index, d); SameOutside(d, r.disk, dest) && IsFolder(r.disk, dest)
  {
    if CreateDirAll(d, path).Some? {
      FoldersBelow(d, path, dest);
    }
  }

  /** Whatever the owner answers, a pull touches nothing outside its destination. */
  lemma {:induction false} PullStaysInside(env: Env, entries: seq<FileEntry>, paths: seq<Path>, index: nat, d: Store,
          dest: Path)
    requires |paths| == |entries| && (forall i :: 0 <= i < |paths| ==> dest < paths[i]) && IsFolder(d, dest)
    ensures var r := PullInto(env, entries, paths, index, d); SameOutside(d, r.disk, dest) && IsFolder(r.disk, dest)
    decreases |entries|
  {
    if entries != [] {
      OneStaysInside(env, entries[0], paths[0], index, d, dest);
      var r := PullOne(env, entries[0], paths[0], index, d);
      if r.error.None? {
        PullStaysInside(env, entries[1..], paths[1..], index + 1, r.disk, dest);
      }
    }
  }

  /** Making folders changes only what was missing on the way down. */
  lemma {:induction false} FoldersOnTheWay(d: Store, path: Path)
    requires CreateDirAll(d, path).Some?
    ensures var d1 := CreateDirAll(d, path).value;
      && IsFolder(d1, path)
      && (forall p | p in d :: p in d1 && d1[p] == d[p])
      && (forall p | p in d1 && p !in d :: p <= path && d1[p].Folder?)
    decreases |path|
  {
    if !IsFolder(d, path) {
      FoldersOnTheWay(d, Parent(path));
    }
  }

  /** Outside of `dest` `r` is what `d` was, but for folders on the way there. */
  predicate OutsideAsBefore(d: Store, r: Store, dest: Path) {
    && (forall p | p in d && !(dest <= p) :: p in r && r[p] == d[p])
    && (forall p | p in r && !(dest <= p) && p !in d :: p <= dest && r[p].Folder?)
  }

  lemma RemovalStaysOutside(d: Store, r: Store, dest: Path)
    requires OutsideAsBefore(d, r, dest)
    ensures OutsideAsBefore(d, RemoveAll(r, dest), dest) && forall p | p in RemoveAll(r, dest) :: !(dest <= p)
  {
  }

  lemma BegunStaysOutside(env: Env, entries: seq<FileEntry>, paths: seq<Path>, dest: Path, d: Store)
    requires |paths| == |entries| && (forall i :: 0 <= i < |paths| ==> dest < paths[i]) && CreateDirAll(d, dest).Some?
    ensures var r := PullInto(env, entries, paths, 0, CreateDirAll(d, dest).value).disk;
      && OutsideAsBefore(d, r, dest)
      && OutsideAsBefore(d, RemoveAll(r, dest), dest) && forall p | p in RemoveAll(r, dest) :: !(dest <= p)
  {
    var d1 := CreateDirAll(d, dest).value;
    FoldersOnTheWay(d, dest);
    PullStaysInside(env, entries, paths, 0, d1, dest);
    RemovalStaysOutside(d, PullInto(env, entries, paths, 0, d1).disk, dest);
  }

  /** For every manifest, every owner and every failure: a pull that fails leaves nothing at or below
      its destination that was not there before it started, and nothing at all once it has begun to
      write; whether it fails or not, whatever else was on the disk is untouched, and what is new
      outside is a folder on the way to the destination. */
  lemma FailedPullLeavesNothing(env: Env, entries: seq<FileEntry>, dest: Path, max: nat, lower: string -> string,
          d: Store)
    ensures var r := Pull(env, entries, dest, max, lower, d);
      && (r.result.Err? ==> r.disk == d || forall p | p in r.disk :: !(dest <= p))
      && (forall p | p in d && !(dest <= p) :: p in r.disk && r.disk[p] == d[p])
      && (forall p | p in r.disk && !(dest <= p) && p !in d :: p <= dest && r.disk[p].Folder?)
  {
    SanitizeAccepts(entries, dest, lower, {});
    var paths := SanitizeManifest(entries, dest, lower);
    if paths.Ok? && CreateDirAll(d, dest).Some? {
      BegunStaysOutside(env, entries, paths.value, dest, d);
    }
  }

  // ---- what success means, whoever answers ------------------------------------------------------------------------

  /** The entry is there: a folder, or a file with at least the bytes announced. */
  predicate Arrived(d: Store, entry: FileEntry, path: Path) {
    path in d && (if entry.dir then d[path].Folder? else d[path].Regular? && |d[path].bytes| >= entry.size)
  }

  lemma {:induction false} FileIsWhole(env: Env, index: nat, size: nat, offset: nat, path: Path, d: Store)
    requires path in d && d[path].Regular? && |d[path].bytes| >= offset
    ensures var r := PullFile(env, index, size, offset, path, d); r.error.None? ==> |r.disk[path].bytes| >= size
    decreases if offset < size then size - offset else 0
  {
    if offset < size && !env.stoppedIn(index, offset) {
      var r := env.read(index, offset, Min(size - offset, MAX_READ_LEN));
      if r.Some? && r.value.Data? && r.value.bytes != [] && !env.writeFails(index, offset) {
        FileIsWhole(env, index, size, offset + |r.value.bytes|, path, d[path := Regular(d[path].bytes + r.value.bytes)]);
      }
    }
  }

  lemma OneArrives(env: Env, entry: FileEntry, path: Path, index: nat, d: Store)
    requires path != []
    ensures var r := PullOne(env, entry, path, index, d);
      && (r.error.None? ==> Arrived(r.disk, entry, path))
      && (forall p | p in d && p != path :: p in r.disk && r.disk[p] == d[p])
  {
    if entry.dir {
      if CreateDirAll(d, path).Some? {
        FoldersOnTheWay(d, path);
      }
    } else if CreateFile(d, path).Some? {
      FileIsWhole(env, index, entry.size, 0, path, CreateFile(d, path).value);
    }
  }

  lemma {:induction false} AllArrive(env: Env, entries: seq<FileEntry>, paths: seq<Path>, index: nat, d: Store)
    requires |paths| == |entries| && forall i :: 0 <= i < |paths| ==> paths[i] != []
    requires forall i, j :: 0 <= i < j < |paths| ==> paths[i] != paths[j]
    ensures var r := PullInto(env, entries, paths, index, d);
      && (r.error.None? ==> forall i :: 0 <= i < |entries| ==> Arrived(r.disk, entries[i], paths[i]))
      && (forall p | p in d && p !in paths :: p in r.disk && r.disk[p] == d[p])
    decreases |entries|
  {
    if entries != [] {
      OneArrives(env, entries[0], paths[0], index, d);
      var r := PullOne(env, entries[0], paths[0], index, d);
      assert paths[0] in paths && forall p :: p in paths <==> p == paths[0] || p in paths[1..];
      if r.error.None? {
        AllArrive(env, entries[1..], paths[1..], index + 1, r.disk);
        var end := PullInto(env, entries[1..], paths[1..], index + 1, r.disk).disk;
        assert paths[0] !in paths[1..];
        assert Arrived(r.disk, entries[0], paths[0]) ==> Arrived(end, entries[0], paths[0]);
        forall i | 0 < i < |entries|
          ensures Arrived(end, entries[i], paths[i]) <==> Arrived(end, entries[1..][i - 1], paths[1..][i - 1])
        {
        }
      }
    }
  }

  /** Whatever manifest is announced and whoever answers for it: a pull that succeeds has every entry
      there, at the place its own name spells below the destination, and no file short. */
  lemma SuccessIsComplete(env: Env, entries: seq<FileEntry>, dest: Path, max: nat, lower: string -> string, d: Store)
    requires Pull(env, entries, dest, max, lower, d).result.Ok?
    ensures var r := Pull(env, entries, dest, max, lower, d);
      forall i :: 0 <= i < |entries| ==> Arrived(r.disk, entries[i], dest + Split(entries[i].path))
  {
    SanitizeAccepts(entries, dest, lower, {});
    var paths := SanitizeManifest(entries, dest, lower).value;
    forall i, j | 0 <= i < j < |paths| ensures paths[i] != paths[j] {
      assert lower(entries[i].path) != lower(entries[j].path);
      JoinUndoesSplit(entries[i].path);
      JoinUndoesSplit(entries[j].path);
      assert paths[i][|dest|..] == Split(entries[i].path) && paths[j][|dest|..] == Split(entries[j].path);
    }
    AllArrive(env, entries, paths, 0, CreateDirAll(d, dest).value);
  }

  // ---- the round trip ---------------------------------------------------------------------------------------------

  /** Below `dest` the disk holds exactly the lines. */
  ghost predicate Mirrors(d: Store, dest: Path, lines: seq<Line>) {
    && IsFolder(d, dest)
    && forall p: Path, cell: Cell :: p != [] ==> ((dest + p in d && d[dest + p] == cell) <==> Has(lines, p, cell))
  }

  /** Nothing of the outside's doing goes wrong at this entry, and the owner still has the file. */
  ghost predicate GoesWell(env: Env, index: nat, l: Line) {
    && !env.stoppedAt(index) && !env.makeFails(index) && !env.flushFails(index)
    && (forall offset: nat :: !env.stoppedIn(index, offset) && !env.writeFails(index, offset))
    && (l.cell.Regular? ==>
          var size := |l.cell.bytes|;
          forall o: nat, n: nat | o < size && n == Min(size - o, MAX_READ_LEN) ::
            env.read(index, o, n) == Some(Data(l.cell.bytes[o..o + n])))
  }

  lemma {:induction false} FileArrives(env: Env, index: nat, l: Line, offset: nat, path: Path, d: Store)
    requires l.cell.Regular? && GoesWell(env, index, l) && offset <= |l.cell.bytes|
    requires path in d && d[path] == Regular(l.cell.bytes[..offset])
    ensures PullFile(env, index, |l.cell.bytes|, offset, path, d) == Pulled(d[path := l.cell], None)
    decreases |l.cell.bytes| - offset
  {
    var bytes := l.cell.bytes;
    if offset == |bytes| {
      assert bytes[..offset] == bytes;
      assert d[path := l.cell] == d;
    } else {
      var n := Min(|bytes| - offset, MAX_READ_LEN);
      assert env.read(index, offset, n) == Some(Data(bytes[offset..offset + n]));
      assert bytes[..offset] + bytes[offset..offset + n] == bytes[..offset + n];
      var d1 := d[path := Regular(bytes[..offset + n])];
      FileArrives(env, index, l, offset + n, path, d1);
      assert d1[path := l.cell] == d[path := l.cell];
    }
  }

  lemma MirroredIsListed(d: Store, dest: Path, lines: seq<Line>, p: Path)
    requires Mirrors(d, dest, lines) && p != []
    ensures dest + p in d ==> exists cell :: Has(lines, p, cell)
  {
    if dest + p in d {
      assert Has(lines, p, d[dest + p]);
    }
  }

  lemma FolderIsThere(l: Line, dest: Path, d: Store, have: seq<Line>)
    requires Mirrors(d, dest, have) && l.path != [] && ParentIn(have, l)
    ensures IsFolder(d, Parent(dest + l.path))
  {
    assert Parent(dest + l.path) == dest + Parent(l.path);
    if |l.path| == 1 {
      assert Parent(dest + l.path) == dest;
    } else {
      assert Has(have, Parent(l.path), Folder);
    }
  }

  lemma LineArrives(env: Env, index: nat, l: Line, dest: Path, d: Store, have: seq<Line>)
    requires Mirrors(d, dest, have) && GoesWell(env, index, l) && Named(l) && ParentIn(have, l)
    requires forall cell :: !Has(have, l.path, cell)
    ensures PullOne(env, EntryOf(l), dest + l.path, index, d) == Pulled(d[dest + l.path := l.cell], None)
  {
    MirroredIsListed(d, dest, have, l.path);
    FolderIsThere(l, dest, d, have);
    CellArrives(env, index, l, dest + l.path, d);
  }

  lemma CellArrives(env: Env, index: nat, l: Line, path: Path, d: Store)
    requires GoesWell(env, index, l) && l.path != [] && path != [] && path !in d && IsFolder(d, Parent(path))
    ensures PullOne(env, EntryOf(l), path, index, d) == Pulled(d[path := l.cell], None)
  {
    if l.cell.Regular? {
      assert l.cell.bytes[..0] == [];
      FileArrives(env, index, l, 0, path, d[path := Regular([])]);
      assert d[path := Regular([])][path := l.cell] == d[path := l.cell];
    } else {
      assert CreateDirAll(d, Parent(path)) == Some(d);
    }
  }

  lemma LineMirrors(l: Line, dest: Path, d: Store, have: seq<Line>)
    requires Mirrors(d, dest, have) && l.path != [] && forall cell :: !Has(have, l.path, cell)
    ensures Mirrors(d[dest + l.path := l.cell], dest, have + [l])
  {
    var d1 := d[dest + l.path := l.cell];
    assert dest + l.path != dest;
    forall p: Path, cell: Cell | p != []
      ensures (dest + p in d1 && d1[dest + p] == cell) <==> Has(have + [l], p, cell)
    {
      HasConcat(have, [l], p, cell);
      assert (dest + p)[|dest|..] == p && (dest + l.path)[|dest|..] == l.path;
      assert [l][0] == l;
    }
  }

  /** No line's path is among `have`'s, nor another line's. */
  ghost predicate NoneTwice(have: seq<Line>, lines: seq<Line>) {
    && (forall i, cell :: 0 <= i < |lines| ==> !Has(have, lines[i].path, cell))
    && (forall i, j :: 0 <= i < j < |lines| ==> lines[i].path != lines[j].path)
  }

  lemma NoneTwiceRest(have: seq<Line>, lines: seq<Line>)
    requires lines != [] && NoneTwice(have, lines)
    ensures NoneTwice(have + [lines[0]], lines[1..])
  {
    forall i, cell | 0 <= i < |lines| - 1 ensures !Has(have + [lines[0]], lines[1..][i].path, cell) {
      HasConcat(have, [lines[0]], lines[i + 1].path, cell);
      assert lines[0].path != lines[i + 1].path;
    }
  }

  /** Entry by entry, the manifest and its resolved paths are the lines'. */
  predicate ComeFrom(entries: seq<FileEntry>, paths: seq<Path>, lines: seq<Line>, dest: Path) {
    && |entries| == |paths| == |lines|
    && (forall i :: 0 <= i < |lines| ==> Named(lines[i]))
    && (forall i :: 0 <= i < |lines| ==> entries[i] == EntryOf(lines[i]))
    && (forall i :: 0 <= i < |lines| ==> paths[i] != [] && paths[i] == dest + lines[i].path)
  }

  /** What a pull of the rest of the lines starts from. */
  ghost predicate Arriving(env: Env, lines: seq<Line>, entries: seq<FileEntry>, paths: seq<Path>, index: nat, dest: Path,
          d: Store, have: seq<Line>) {
    && |entries| == |paths| && ComeFrom(entries, paths, lines, dest)
    && Mirrors(d, dest, have) && FoldersFirst(have, lines) && NoneTwice(have, lines)
    && (forall i :: 0 <= i < |lines| ==> GoesWell(env, index + i, lines[i]))
  }

  lemma Regrouped(have: seq<Line>, lines: seq<Line>)
    requires lines != []
    ensures (have + [lines[0]]) + lines[1..] == have + lines
  {
  }

  /** All of `whole` is there once nothing goes wrong with the rest of it. */
  ghost predicate Arrives(r: Pulled, dest: Path, whole: seq<Line>) {
    r.error == None && Mirrors(r.disk, dest, whole)
  }

  /** A manifest's worth of lines arrives, one after the other. */
  lemma {:induction false} LinesArrive(env: Env, lines: seq<Line>, entries: seq<FileEntry>, paths: seq<Path>, index: nat,
          dest: Path, d: Store, have: seq<Line>)
    requires Arriving(env, lines, entries, paths, index, dest, d, have)
    ensures Arrives(PullInto(env, entries, paths, index, d), dest, have + lines)
    decreases |lines|
  {
    if lines == [] {
      assert have + lines == have;
      NoLinesArrive(env, entries, paths, index, dest, d, have);
    } else {
      Regrouped(have, lines);
      var d1, more := Onward(env, lines, entries, paths, index, dest, d, have);
      LinesArrive(env, lines[1..], entries[1..], paths[1..], index + 1, dest, d1, more);
    }
  }

  lemma NoLinesArrive(env: Env, entries: seq<FileEntry>, paths: seq<Path>, index: nat, dest: Path, d: Store, have: seq<Line>)
    requires Arriving(env, [], entries, paths, index, dest, d, have)
    ensures Arrives(PullInto(env, entries, paths, index, d), dest, have)
  {
  }

  lemma Onward(env: Env, lines: seq<Line>, entries: seq<FileEntry>, paths: seq<Path>, index: nat, dest: Path, d: Store,
          have: seq<Line>) returns (d1: Store, more: seq<Line>)
    requires lines != [] && Arriving(env, lines, entries, paths, index, dest, d, have)
    ensures more == have + [lines[0]]
    ensures PullInto(env, entries, paths, index, d) == PullInto(env, entries[1..], paths[1..], index + 1, d1)
    ensures Arriving(env, lines[1..], entries[1..], paths[1..], index + 1, dest, d1, more)
  {
    var l := lines[0];
    d1, more := d[dest + l.path := l.cell], have + [l];
    FirstArrives(env, l, lines, entries, paths, index, dest, d, have);
    NoneTwiceRest(have, lines);
    RestGoesWell(env, lines, index);
  }

  lemma RestGoesWell(env: Env, lines: seq<Line>, index: nat)
    requires lines != [] && forall i :: 0 <= i < |lines| ==> GoesWell(env, index + i, lines[i])
    ensures forall i :: 0 <= i < |lines| - 1 ==> GoesWell(env, index + 1 + i, lines[1..][i])
  {
    forall i | 0 <= i < |lines| - 1 ensures GoesWell(env, index + 1 + i, lines[1..][i]) {
      assert GoesWell(env, index + (i + 1), lines[i + 1]);
    }
  }

  lemma FirstArrives(env: Env, l: Line, lines: seq<Line>, entries: seq<FileEntry>, paths: seq<Path>, index: nat,
          dest: Path, d: Store, have: seq<Line>)
    requires lines != [] && l == lines[0] && |entries| == |paths| && ComeFrom(entries, paths, lines, dest)
    requires Mirrors(d, dest, have) && GoesWell(env, index, l) && ParentIn(have, l) && forall cell :: !Has(have, l.path, cell)
    ensures PullOne(env, entries[0], paths[0], index, d) == Pulled(d[dest + l.path := l.cell], None)
    ensures Mirrors(d[dest + l.path := l.cell], dest, have + [l])
  {
    LineArrives(env, index, l, dest, d, have);
    LineMirrors(l, dest, d, have);
  }

  function Under(dest: Path, tops: seq<Path>): seq<Path> {
    seq(|tops|, i requires 0 <= i < |tops| => dest + tops[i])
  }

  lemma {:induction false} TopLevelIsTops(lines: seq<Line>, entries: seq<FileEntry>, paths: seq<Path>, dest: Path)
    requires |entries| == |paths| && ComeFrom(entries, paths, lines, dest)
    ensures TopLevel(entries, paths) == Under(dest, Tops(lines))
    decreases |lines|
  {
    if lines != [] {
      OnePart(entries[0].path);
      SplitUndoesJoin(lines[0].path);
      TopLevelIsTops(lines[1..], entries[1..], paths[1..], dest);
    }
  }

  /** The owner answers every read from the same announcement, the files are as they were, and
      nothing else goes wrong. */
  ghost predicate Faithful(env: Env, disk: Forest, seqNo: nat, g: Gathered) {
    && !env.stopped && !env.destFails
    && (forall i: nat :: !env.stoppedAt(i) && !env.makeFails(i) && !env.flushFails(i))
    && (forall i: nat, o: nat :: !env.stoppedIn(i, o) && !env.writeFails(i, o))
    && (forall i: nat, o: nat, n: nat ::
          env.read(i, o, n) == Some(Answer(Some(Serving(seqNo, g.entries, g.abs)), disk, seqNo, i, o, n)))
  }

  lemma FaithfulGoesWell(env: Env, disk: Forest, seqNo: nat, g: Gathered, lines: seq<Line>, i: nat)
    requires Faithful(env, disk, seqNo, g) && Lists(g, lines) && i < |lines| && Sourced(disk, lines[i])
    ensures GoesWell(env, i, lines[i])
  {
    var l := lines[i];
    assert g.entries[i] == EntryOf(l) && g.abs[i] == l.abs;
  }

  /** Nothing is below `dest` yet, and nothing on the way to it is a file. */
  predicate Ready(d: Store, dest: Path) {
    (forall p | p in d :: !(dest < p)) && CreateDirAll(d, dest).Some?
  }

  lemma FreshMirrors(d: Store, dest: Path)
    requires Ready(d, dest)
    ensures Mirrors(CreateDirAll(d, dest).value, dest, [])
  {
    FoldersOnTheWay(d, dest);
    var d1 := CreateDirAll(d, dest).value;
    forall p: Path, cell: Cell | p != []
      ensures (dest + p in d1 && d1[dest + p] == cell) <==> Has([], p, cell)
    {
      assert dest < dest + p;
    }
  }

  /** Accepted entries never come twice. */
  lemma AcceptedOnce(g: Gathered, lines: seq<Line>, dest: Path, lower: string -> string)
    requires Lists(g, lines) && (forall l | l in lines :: Named(l)) && SanitizeManifest(g.entries, dest, lower).Ok?
    ensures NoneTwice([], lines)
    ensures ComeFrom(g.entries, SanitizeManifest(g.entries, dest, lower).value, lines, dest)
  {
    SanitizeAccepts(g.entries, dest, lower, {});
    forall i, j | 0 <= i < j < |lines| ensures lines[i].path != lines[j].path {
      assert lower(g.entries[i].path) != lower(g.entries[j].path);
      assert g.entries[i] == EntryOf(lines[i]) && g.entries[j] == EntryOf(lines[j]);
    }
    forall i | 0 <= i < |lines| ensures Split(g.entries[i].path) == lines[i].path {
      assert lines[i] in lines;
      SplitUndoesJoin(lines[i].path);
    }
  }

  lemma LinesFill(lines: seq<Line>, entries: seq<FileEntry>, paths: seq<Path>, env: Env, dest: Path, d: Store)
    requires FoldersFirst([], lines) && NoneTwice([], lines)
    requires |entries| == |paths| && ComeFrom(entries, paths, lines, dest)
    requires (forall i :: 0 <= i < |lines| ==> GoesWell(env, i, lines[i])) && Ready(d, dest)
    ensures var r := PullInto(env, entries, paths, 0, CreateDirAll(d, dest).value);
      r.error == None && Mirrors(r.disk, dest, lines)
  {
    FreshMirrors(d, dest);
    assert forall i :: 0 <= i < |lines| ==> GoesWell(env, 0 + i, lines[i]);
    LinesArrive(env, lines, entries, paths, 0, dest, CreateDirAll(d, dest).value, []);
    assert [] + lines == lines;
  }

  /** A listing that was accepted arrives whole. */
  lemma ListingArrives(disk: Forest, lines: seq<Line>, g: Gathered, env: Env, seqNo: nat, dest: Path, max: nat,
          lower: string -> string, d: Store)
    requires Lists(g, lines) && FoldersFirst([], lines) && forall l | l in lines :: Named(l) && Sourced(disk, l)
    requires SanitizeManifest(g.entries, dest, lower).Ok? && (max == 0 || g.total <= max)
    requires Faithful(env, disk, seqNo, g) && Ready(d, dest)
    ensures var r := Pull(env, g.entries, dest, max, lower, d);
      r.result == Ok(Under(dest, Tops(lines))) && Mirrors(r.disk, dest, lines)
  {
    AcceptedOnce(g, lines, dest, lower);
    var paths := SanitizeManifest(g.entries, dest, lower).value;
    forall i | 0 <= i < |lines| ensures GoesWell(env, i, lines[i]) {
      assert lines[i] in lines;
      FaithfulGoesWell(env, disk, seqNo, g, lines, i);
    }
    LinesFill(lines, g.entries, paths, env, dest, d);
    TopLevelIsTops(lines, g.entries, paths, dest);
  }

  /** The round trip. For every disk and every choice of roots on it that a copy accepts, and every
      other disk with room for it: pulling the copy from its owner succeeds, returns exactly the
      roots that were kept, in order, and leaves below the destination exactly their trees, file for
      file and byte for byte, without the links and devices. */
  lemma PullRoundTrip(disk: Forest, roots: seq<Path>, limit: nat, g: Gathered, env: Env, seqNo: nat, dest: Path,
          max: nat, lower: string -> string, d: Store)
    requires Sane(disk) && Collect(disk, roots, limit, NOTHING) == Ok(g)
    requires SanitizeManifest(g.entries, dest, lower).Ok? && (max == 0 || g.total <= max)
    requires Faithful(env, disk, seqNo, g) && Ready(d, dest)
    ensures var r := Pull(env, g.entries, dest, max, lower, d);
      r.result == Ok(Under(dest, KeptRoots(disk, roots))) && HoldsCopy(r.disk, dest, disk, roots)
  {
    var lines := ListingOfRoots(disk, roots);
    CollectLists(disk, roots, limit, NOTHING, []);
    assert [] + lines == lines;
    ListingOfRootsIsGood(disk, roots, []);
    ListingArrives(disk, lines, g, env, seqNo, dest, max, lower, d);
    TopsAreKeptRoots(disk, roots);
    forall p: Path, cell: Cell | p != [] ensures Has(lines, p, cell) <==> Copied(disk, roots, p, cell) {
      ListingOfRootsIsCopied(disk, roots, p, cell);
    }
  }

  /** Below `dest`, path by path, there is exactly what the roots hold. */
  ghost predicate HoldsCopy(d: Store, dest: Path, disk: Forest, roots: seq<Path>) {
    && IsFolder(d, dest)
    && forall p: Path, cell: Cell :: p != [] ==> ((dest + p in d && d[dest + p] == cell) <==> Copied(disk, roots, p, cell))
  }

  /** The owner's data is the announced file's, when it comes; any read may fail, and anything else
      may go wrong. */
  ghost predicate Honest(env: Env, disk: Forest, seqNo: nat, g: Gathered) {
    forall i: nat, o: nat, n: nat ::
      var r := env.read(i, o, n);
      r.Some? && r.value.Data? ==> r.value == Answer(Some(Serving(seqNo, g.entries, g.abs)), disk, seqNo, i, o, n)
  }

  /** The same owner on a day when nothing goes wrong. */
  function Ideal(disk: Forest, seqNo: nat, g: Gathered): Env {
    Env((i: nat, o: nat, n: nat) => Some(Answer(Some(Serving(seqNo, g.entries, g.abs)), disk, seqNo, i, o, n)),
        false, (i: nat) => false, (i: nat, o: nat) => false, false, (i: nat) => false, (i: nat, o: nat) => false,
        (i: nat) => false)
  }

  lemma {:induction false} FetchedFileIsIdeal(env: Env, ideal: Env, index: nat, size: nat, offset: nat, path: Path,
          d: Store)
    requires path in d && d[path].Regular? && NoWorse(env, ideal)
    ensures var r := PullFile(env, index, size, offset, path, d);
      r.error.None? ==> PullFile(ideal, index, size, offset, path, d) == r
    decreases if offset < size then size - offset else 0
  {
    if offset < size && !env.stoppedIn(index, offset) {
      var r := env.read(index, offset, Min(size - offset, MAX_READ_LEN));
      if r.Some? && r.value.Data? && r.value.bytes != [] && !env.writeFails(index, offset) {
        FetchedFileIsIdeal(env, ideal, index, size, offset + |r.value.bytes|, path, d[path := Regular(d[path].bytes + r.value.bytes)]);
      }
    }
  }

  /** `ideal` fails nowhere and answers with whatever data `env` answers with. */
  ghost predicate NoWorse(env: Env, ideal: Env) {
    && (forall i: nat :: !ideal.stoppedAt(i) && !ideal.makeFails(i) && !ideal.flushFails(i))
    && (forall i: nat, o: nat :: !ideal.stoppedIn(i, o) && !ideal.writeFails(i, o))
    && (forall i: nat, o: nat, n: nat :: env.read(i, o, n).Some? && env.read(i, o, n).value.Data? ==>
          ideal.read(i, o, n) == env.read(i, o, n))
  }

  lemma {:induction false} FetchedTreeIsIdeal(env: Env, ideal: Env, entries: seq<FileEntry>, paths: seq<Path>,
          index: nat, d: Store)
    requires |paths| == |entries| && (forall i :: 0 <= i < |paths| ==> paths[i] != []) && NoWorse(env, ideal)
    ensures var r := PullInto(env, entries, paths, index, d);
      r.error.None? ==> PullInto(ideal, entries, paths, index, d) == r
    decreases |entries|
  {
    if entries != [] {
      if !entries[0].dir && CreateFile(d, paths[0]).Some? {
        FetchedFileIsIdeal(env, ideal, index, entries[0].size, 0, paths[0], CreateFile(d, paths[0]).value);
      }
      FetchedTreeIsIdeal(env, ideal, entries[1..], paths[1..], index + 1, PullOne(env, entries[0], paths[0], index, d).disk);
    }
  }

  /** Whatever fails on the way (the network, the disk, a cancel, a file that changed): a copy pulled
      from an honest owner is either exact or absent. */
  lemma PullIsExactOrNothing(disk: Forest, roots: seq<Path>, limit: nat, g: Gathered, env: Env, seqNo: nat,
          dest: Path, max: nat, lower: string -> string, d: Store)
    requires Sane(disk) && Collect(disk, roots, limit, NOTHING) == Ok(g)
    requires Honest(env, disk, seqNo, g) && forall p | p in d :: !(dest < p)
    ensures var r := Pull(env, g.entries, dest, max, lower, d);
      if r.result.Ok? then r.result.value == Under(dest, KeptRoots(disk, roots)) && HoldsCopy(r.disk, dest, disk, roots)
      else r.disk == d || forall p | p in r.disk :: !(dest <= p)
  {
    FailedPullLeavesNothing(env, g.entries, dest, max, lower, d);
    var r := Pull(env, g.entries, dest, max, lower, d);
    if r.result.Ok? {
      var ideal := Ideal(disk, seqNo, g);
      SanitizeAccepts(g.entries, dest, lower, {});
      FetchedTreeIsIdeal(env, ideal, g.entries, SanitizeManifest(g.entries, dest, lower).value, 0, CreateDirAll(d, dest).value);
      CollectLists(disk, roots, limit, NOTHING, []);
      PullRoundTrip(disk, roots, limit, g, ideal, seqNo, dest, max, lower, d);
    }
  }

  // ---- cancelling ----------------------------------------------------------------------------------------------------

  /** Cancels the pulls running now, and none started later. */
  class CancelSwitch {
    var generation: nat

    constructor ()
      ensures generation == 0
    {
      generation := 0;
    }

    method Cancel()
      modifies this
      ensures generation == old(generation) + 1
    {
      generation := generation + 1;
    }

    method Watch() returns (start: nat)
      ensures start == generation
    {
      start := generation;
    }

    method IsCancelled(start: nat) returns (cancelled: bool)
      ensures cancelled <==> Flipped(start, generation)
    {
      cancelled := generation != start;
    }
  }

  /** The switch was pressed since it stood at `start`. */
  predicate Flipped(start: nat, generation: nat) {
    start != generation
  }

  datatype SwitchUse = PressCancel | StartPull

  function Generation(uses: seq<SwitchUse>): nat {
    if uses == [] then 0
    else Generation(uses[..|uses| - 1]) + if uses[|uses| - 1].PressCancel? then 1 else 0
  }

  /** A pull started after `before` is cancelled iff Cancel was pressed since. */
  lemma {:induction false} CancelReachesRunningPulls(before: seq<SwitchUse>, since: seq<SwitchUse>)
    ensures Generation(before + since) >= Generation(before)
    ensures Flipped(Generation(before), Generation(before + since)) <==> PressCancel in since
    decreases |since|
  {
    if since == [] {
      assert before + since == before;
    } else {
      var n := |since| - 1;
      assert (before + since)[..|before + since| - 1] == before + since[..n];
      CancelReachesRunningPulls(before, since[..n]);
      assert since == since[..n] + [since[n]];
    }
  }
}
