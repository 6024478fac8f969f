/** Runs of the SAC file server refine runs over the plain picture of a file system. */
module SacRuns {
  import opened SacPaths
  import opened SacTree
  import opened SacTreeOps
  import opened SacDisk
  import opened SacGrowth
  import opened SacWrite
  import opened SacRelease
  import opened SacFs

  // ---- unlink, rmdir and rename in the picture ----

  lemma UnlinkOk(fs: Fs, path: string)
    requires FsOk(fs) && IsFile(fs, path)
    ensures var (fs', r) := UnlinkFile(fs, path);
      && FsOk(fs') && r == 0
      && View(fs') == View(fs) - {Components(path)}
  {
    hide SiblingsDiffer, ParentsLive, Rooted, NamesClean, StoreOk, Contents;
    var n, c := Resolve(fs.dir, path), Components(path);
    var fs' := UnlinkFile(fs, path).0;
    ResolveIsLookup(fs.dir, path);
    LookupHasPath(fs.dir, c);
    FilesAreChildless(fs.dir, n);
    ChildlessSubtree(fs.dir, n, c);
    SubtreeClosed(fs.dir, c);
    WithoutTreeOk(fs.dir, Subtree(fs.dir, c));
    CountsAlwaysOk(fs);
    ReleasedOk(fs.st, Count(fs), n - 1);
    CountWith(fs, fs', n - 1);
    KeptNodes(fs, fs', n - 1);
    ViewRemoved(fs, fs', n, c);
  }

  /** The entry at c and all below it went; the rest stays. */
  lemma ViewRemoved(fs: Fs, fs': Fs, n: int, c: Path)
    requires TreeOk(fs.dir) && |fs.st.files| == |fs'.st.files| == NODES && c != []
    requires n > 0 && Lookup(fs.dir, c) == n && Subtree(fs.dir, c) == {n}
    requires fs'.dir == Without(fs.dir, Subtree(fs.dir, c)) && NodesKept(fs, fs', n - 1)
    ensures View(fs') == View(fs) - {c}
  {
    forall q: Path
      ensures q in View(fs') <==> q in View(fs) - {c}
      ensures q in View(fs') ==> View(fs')[q] == View(fs)[q]
    {
      RemovedLookup(fs.dir, c, q);
      LookupRange(fs.dir, q);
      if c <= q && q != c && Lookup(fs.dir, q) >= 0 {
        OnlyOneUnder(fs.dir, c, q, n);
      }
      if Lookup(fs.dir, q) == n {
        LookupInjective(fs.dir, q, c);
      }
    }
  }

  lemma OnlyOneUnder(t: Table, c: Path, q: Path, n: int)
    requires TreeOk(t) && c != [] && c <= q && Lookup(t, q) >= 0 && Subtree(t, c) == {n} && Lookup(t, c) == n
    ensures q == c
  {
    LookupHasPath(t, q);
    LookupRange(t, q);
    assert AtOrUnder(t, Lookup(t, q), c);
    assert Lookup(t, q) in Subtree(t, c);
    LookupInjective(t, q, c);
  }

  /** The picture without path c and what is below it. */
  ghost function Pruned(v: Picture, c: Path): Picture {
    imap q | q in v && !(c <= q) :: v[q]
  }

  ghost predicate NoFilesUnder(fs: Fs, c: Path) {
    forall n :: n in Subtree(fs.dir, c) ==> fs.dir[n - 1].state != FILE
  }

  lemma RmdirOk(fs: Fs, path: string)
    requires FsOk(fs) && Absolute(path) && Resolve(fs.dir, path) != 0 && NoFilesUnder(fs, Components(path))
    ensures var (fs', r) := RemoveDirectory(fs, path);
      && FsOk(fs') && fs'.st == fs.st
      && (r == 0 <==> Components(path) in View(fs))
      && View(fs') == if r == 0 then Pruned(View(fs), Components(path)) else View(fs)
  {
    hide SiblingsDiffer, ParentsLive, Rooted, NamesClean;
    var c := Components(path);
    ResolveIsLookup(fs.dir, path);
    LookupRange(fs.dir, c);
    if Resolve(fs.dir, path) != -1 {
      var fs' := RemoveDirectory(fs, path).0;
      SubtreeClosed(fs.dir, c);
      SubtreeNoRoot(fs.dir, c);
      WithoutTreeOk(fs.dir, Subtree(fs.dir, c));
      assert Count(fs') == Count(fs);
      forall q: Path
        ensures q in View(fs') <==> q in Pruned(View(fs), c)
        ensures q in View(fs') ==> View(fs')[q] == Pruned(View(fs), c)[q]
      {
        hide *;
        PrunedNode(fs, fs', c, q);
      }
    }
  }

  lemma PrunedNode(fs: Fs, fs': Fs, c: Path, q: Path)
    requires TreeOk(fs.dir) && |fs.st.files| == NODES && c != [] && Lookup(fs.dir, c) >= 0
    requires fs' == fs.(dir := Without(fs.dir, Subtree(fs.dir, c)))
    ensures q in View(fs') <==> q in Pruned(View(fs), c)
    ensures q in View(fs') ==> View(fs')[q] == Pruned(View(fs), c)[q]
  {
    hide SiblingsDiffer, ParentsLive, Rooted, NamesClean, Lookup, Subtree;
    RemovedLookup(fs.dir, c, q);
    LookupRange(fs.dir, q);
    LookupRange(fs'.dir, q);
  }

  lemma SubtreeNoRoot(t: Table, c: Path)
    ensures 0 !in Subtree(t, c)
  {
  }

  /** The picture after the subtree at o went to w. */
  ghost function Moved(v: Picture, o: Path, w: Path): Picture {
    imap q | (w <= q && o + q[|w|..] in v) || (!(w <= q) && !(o <= q) && q in v) ::
      if w <= q then v[o + q[|w|..]] else v[q]
  }

  /** What o_rename needs and does not check, when the old path is there. */
  ghost predicate MayRename(fs: Fs, old_: string, new_: string) {
    && Absolute(old_) && Absolute(new_)
    && (Resolve(fs.dir, old_) == -1 || MayMovePath(fs, old_, new_))
  }

  ghost predicate MayMovePath(fs: Fs, old_: string, new_: string) {
    && Absolute(old_) && Splittable(new_) && Resolve(fs.dir, old_) > 0
    && MayMove(
      fs.dir, Resolve(fs.dir, old_), Components(old_), Components(new_), Resolve(fs.dir, SuperPart(new_)))
  }

  lemma LastComponent(path: string)
    requires Splittable(path)
    ensures Absolute(path) && Components(path) != [] && Components(path)[|Components(path)| - 1] == NamePart(path)
  {
  }

  /** A rename of a path that is there. */
  lemma MoveOk(fs: Fs, old_: string, new_: string)
    requires FsOk(fs) && MayMovePath(fs, old_, new_)
    ensures var (fs', r) := RenameEntry(fs, old_, new_);
      FsOk(fs') && fs'.st == fs.st && r == 0 && View(fs') == Moved(View(fs), Components(old_), Components(new_))
  {
    hide View, Moved, StoreOk, MayMove, TreeOk, Lookup, Resolve, Components, NamePart, SuperPart;
    var n, o, w, parent := Resolve(fs.dir, old_), Components(old_), Components(new_), Resolve(fs.dir, SuperPart(new_));
    var fs' := RenameEntry(fs, old_, new_).0;
    MoverIsLive(fs.dir, n, o, w, parent);
    LastComponent(new_);
    assert RenameEntry(fs, old_, new_) == (fs.(dir := Renamed(fs.dir, n, w[|w| - 1], parent)), 0);
    RenamedTreeOk(fs.dir, n, o, w, parent);
    assert Count(fs') == Count(fs);
    ViewMoved(fs, fs', n, o, w, parent);
  }

  lemma RenameOk(fs: Fs, old_: string, new_: string)
    requires FsOk(fs) && MayRename(fs, old_, new_)
    ensures var (fs', r) := RenameEntry(fs, old_, new_);
      && FsOk(fs') && fs'.st == fs.st
      && r == (if Components(old_) in View(fs) then 0 else -1)
      && View(fs') == if r == 0 then Moved(View(fs), Components(old_), Components(new_)) else View(fs)
  {
    hide Moved, StoreOk, SiblingsDiffer, ParentsLive, Rooted, NamesClean, MayMove, Resolve, Components, NodeAt;
    ResolveIsLookup(fs.dir, old_);
    LookupRange(fs.dir, Components(old_));
    if Resolve(fs.dir, old_) != -1 {
      MoveOk(fs, old_, new_);
    }
  }

  lemma ViewMoved(fs: Fs, fs': Fs, n: int, o: Path, w: Path, parent: int)
    requires FsOk(fs) && FsOk(fs') && MayMove(fs.dir, n, o, w, parent) && 1 <= n <= |fs.dir|
    requires fs'.st == fs.st && fs'.dir == Renamed(fs.dir, n, w[|w| - 1], parent)
    ensures View(fs') == Moved(View(fs), o, w)
  {
    assert |fs.dir| == |fs'.dir| == |fs.st.files|;
    hide FsOk, MayMove, NodeAt, Lookup, Renamed;
    forall q: Path
      ensures q in View(fs') <==> q in Moved(View(fs), o, w)
      ensures q in View(fs') ==> View(fs')[q] == Moved(View(fs), o, w)[q]
    {
      MovedNode(fs, fs', n, o, w, parent, q);
    }
  }

  lemma MovedNode(fs: Fs, fs': Fs, n: int, o: Path, w: Path, parent: int, q: Path)
    requires FsOk(fs) && FsOk(fs') && MayMove(fs.dir, n, o, w, parent) && 1 <= n <= |fs.dir|
    requires fs'.st == fs.st && fs'.dir == Renamed(fs.dir, n, w[|w| - 1], parent)
    ensures var source := if w <= q then o + q[|w|..] else q;
      && (Lookup(fs'.dir, q) >= 0 <==> Lookup(fs.dir, source) >= 0 && (w <= q || !(o <= q)))
      && (Lookup(fs'.dir, q) >= 0 ==>
            && Lookup(fs'.dir, q) == Lookup(fs.dir, source) <= NODES
            && NodeAt(fs', Lookup(fs'.dir, q)) == NodeAt(fs, Lookup(fs.dir, source)))
  {
    hide StoreOk, MayMove, NodeAt, Lookup;
    RenamedLookup(fs.dir, n, o, w, parent, q);
    LookupRange(fs'.dir, q);
    if Lookup(fs'.dir, q) >= 0 {
      SameNode(fs, fs', Lookup(fs'.dir, q));
    }
  }

  lemma SameNode(fs: Fs, fs': Fs, m: nat)
    requires m <= |fs.dir| == |fs'.dir| == |fs.st.files| && fs'.st == fs.st
    requires forall i :: 0 <= i < |fs.dir| ==> fs'.dir[i].state == fs.dir[i].state
    ensures NodeAt(fs', m) == NodeAt(fs, m)
  {
  }

  // ================= runs =================

  datatype Request =
    | Create(path: string)
    | Mkdir(path: string)
    | Append(path: string, bytes: seq<Byte>)
    | Unlink(path: string)
    | Rmdir(path: string)
    | Rename(old_: string, new_: string)

  /** A new entry's name is clean and its parent, if there is one, a directory. */
  ghost predicate MayPlace(fs: Fs, path: string) {
    && Absolute(path)
    && (Splittable(path) ==> CleanName(NamePart(path)))
    && (Place(fs.dir, path).Slot? ==> IsDirectory(fs.dir, Place(fs.dir, path).parent))
  }

  /** What o_write needs of a write at the end of a file. */
  ghost predicate MayAppend(fs: Fs, path: string, len: nat)
    requires FsOk(fs)
  {
    && IsFile(fs, path)
    && var size := fs.st.files[Resolve(fs.dir, path) - 1].size;
      size + len < MAX_SIZE && HasRoom(fs.st, size, len) && (size % BLOCK == 0 || len < BLOCK)
  }

  lemma AppendMayWrite(fs: Fs, path: string, buf: seq<Byte>)
    requires FsOk(fs) && MayAppend(fs, path, |buf|)
    ensures MayWrite(fs, path, buf, fs.st.files[Resolve(fs.dir, path) - 1].size)
  {
    hide SiblingsDiffer, ParentsLive, Rooted, NamesClean, StoreOk, Resolve, NewBlocks;
    CountsAlwaysOk(fs);
  }

  /** What callers and the disk must grant. */
  ghost predicate Accepts(fs: Fs, r: Request)
    requires FsOk(fs)
  {
    match r
    case Create(path) => MayPlace(fs, path) && (Place(fs.dir, path).Slot? ==> |FreeBlocks(fs.st)| >= 2)
    case Mkdir(path) => MayPlace(fs, path)
    case Append(path, bytes) => MayAppend(fs, path, |bytes|)
    case Unlink(path) => IsFile(fs, path)
    case Rmdir(path) => Absolute(path) && Resolve(fs.dir, path) != 0 && NoFilesUnder(fs, Components(path))
    case Rename(old_, new_) => MayRename(fs, old_, new_)
  }

  /** What the server does, and that it stays well formed: the tree is a tree, and blocks are owned once,
      used and past the metadata. */
  ghost function Serve(fs: Fs, r: Request): (served: (Fs, int))
    requires FsOk(fs) && Accepts(fs, r)
    ensures FsOk(served.0)
  {
    hide TreeOk, StoreOk, MayMove, CanAppend;
    match r
    case Create(path) =>
      CreateOk(fs, path);
      CreateFile(fs, path)
    case Mkdir(path) =>
      MkdirOk(fs, path);
      MakeDirectory(fs, path)
    case Append(path, bytes) =>
      var off := fs.st.files[Resolve(fs.dir, path) - 1].size;
      AppendMayWrite(fs, path, bytes);
      WriteOk(fs, path, bytes, off);
      WriteFile(fs, path, bytes, off)
    case Unlink(path) =>
      UnlinkOk(fs, path);
      UnlinkFile(fs, path)
    case Rmdir(path) =>
      RmdirOk(fs, path);
      RemoveDirectory(fs, path)
    case Rename(old_, new_) =>
      RenameOk(fs, old_, new_);
      RenameEntry(fs, old_, new_)
  }

  // ---- the plain file system ----

  /** The picture, and the number of blocks bitmap_free_blocks says are free. */
  datatype Plain = Plain(view: Picture, free: int)

  ghost function Shown(fs: Fs): Plain
    requires |fs.dir| == |fs.st.files|
  {
    Plain(View(fs), fs.st.free)
  }

  /** There are as many files and directories as the node table has entries. */
  ghost predicate Crowded(v: Picture) {
    exists paths: set<Path> :: |paths| == NODES && AllNamed(paths, v)
  }

  ghost predicate AllNamed(paths: set<Path>, v: Picture) {
    forall c :: c in paths ==> c in v && c != []
  }

  /** A new node, unless the path is taken or its parent missing, or there are too many. */
  ghost function Put(p: Plain, c: Path, node: Node, tooMany: int): (Plain, int) {
    if c in p.view || c == [] || c[..|c| - 1] !in p.view then (p, 1)
    else if Crowded(p.view) then (p, tooMany)
    else (p.(view := p.view[c := node]), 0)
  }

  /** How much of a write at the end of a file of this length is done. */
  function Accepted(free: int, length: nat, bytes: seq<Byte>): (n: nat)
    ensures n <= |bytes|
  {
    if free == 0 && |bytes| > SpaceLeft(length) then SpaceLeft(length) else |bytes|
  }

  /** The same requests on the plain file system: all that a user can observe. */
  ghost function Ideal(p: Plain, r: Request): (Plain, int)
    requires WellFormed(r)
  {
    match r
    case Create(path) => Put(p, Components(path), File([]), -EDQUOT)
    case Mkdir(path) => Put(p, Components(path), Dir, 1)
    case Append(path, bytes) =>
      var c := Components(path);
      if c in p.view && p.view[c].File? then
        var n := Accepted(p.free, |p.view[c].bytes|, bytes);
        (p.(view := p.view[c := File(p.view[c].bytes + bytes[..n])]), if n == |bytes| then n else -1)
      else (p, -1)
    case Unlink(path) =>
      var c := Components(path);
      if c in p.view && p.view[c].File? then
        var size := |p.view[c].bytes|;
        (Plain(p.view - {c}, p.free + if size == 0 then 0 else Blocks(size)), 0)
      else (p, -1)
    case Rmdir(path) =>
      if Components(path) in p.view then (p.(view := Pruned(p.view, Components(path))), 0) else (p, -1)
    case Rename(old_, new_) =>
      if Components(old_) in p.view then (p.(view := Moved(p.view, Components(old_), Components(new_))), 0) else (p, -1)
  }

  predicate WellFormed(r: Request) {
    if r.Rename? then Absolute(r.old_) && Absolute(r.new_) else Absolute(r.path)
  }

  // ---- when the table is full ----

  /** Different paths lead to different entries, so there are no more paths than entries. */
  lemma {:induction false} PathsAreEntries(t: Table, paths: set<Path>, entries: set<int>)
    requires SiblingsDiffer(t) && ParentsLive(t)
    requires (forall c :: c in paths ==> Lookup(t, c) in entries) && forall n :: n in entries ==> n >= 0
    ensures |paths| <= |entries|
    decreases |paths|
  {
    if c :| c in paths {
      forall d | d in paths - {c} ensures Lookup(t, d) in entries - {Lookup(t, c)} {
        if Lookup(t, d) == Lookup(t, c) {
          LookupInjective(t, d, c);
        }
      }
      PathsAreEntries(t, paths - {c}, entries - {Lookup(t, c)});
    }
  }

  /** The numbers of the first n entries. */
  ghost function Numbers(n: nat): (ns: set<int>)
    ensures |ns| == n && forall i :: i in ns <==> 1 <= i <= n
  {
    if n == 0 then {} else Numbers(n - 1) + {n}
  }

  /** The paths of the first n entries, when all are live. */
  lemma {:induction false} PathsOfFirst(t: Table, n: nat) returns (paths: set<Path>)
    requires TreeOk(t) && n <= |t| && forall i :: 0 <= i < n ==> t[i].state != DELETED
    ensures |paths| == n && forall c :: c in paths ==> c != [] && 1 <= Lookup(t, c) <= n
  {
    hide SiblingsDiffer, ParentsLive, NamesClean, IsPathOf;
    paths := {};
    if n > 0 {
      paths := PathsOfFirst(t, n - 1);
      assert Live(t, n);
      var c := PathOf(t, n);
      PathLooksUp(t, n, c);
      paths := paths + {c};
    }
  }

  /** o_create and o_mkdir find no slot exactly when there are as many paths as entries. */
  lemma FullIsCrowded(fs: Fs)
    requires TreeOk(fs.dir) && |fs.st.files| == NODES
    ensures FirstFree(fs.dir, 0) == |fs.dir| <==> Crowded(View(fs))
  {
    hide SiblingsDiffer, ParentsLive, Rooted, NamesClean, View, FirstFree, Crowded;
    if FirstFree(fs.dir, 0) == |fs.dir| {
      FullThenCrowded(fs);
    } else if Crowded(View(fs)) {
      FreeThenNotCrowded(fs, FirstFree(fs.dir, 0));
    }
  }

  lemma FullThenCrowded(fs: Fs)
    requires TreeOk(fs.dir) && |fs.st.files| == NODES
    requires forall i :: 0 <= i < NODES ==> fs.dir[i].state != DELETED
    ensures Crowded(View(fs))
  {
    var paths := PathsOfFirst(fs.dir, NODES);
    hide TreeOk, Lookup;
    assert AllNamed(paths, View(fs));
  }

  lemma FreeThenNotCrowded(fs: Fs, k: nat)
    requires TreeOk(fs.dir) && |fs.st.files| == NODES && k < NODES && fs.dir[k].state == DELETED
    ensures !Crowded(View(fs))
  {
    hide SiblingsDiffer, ParentsLive, Rooted, NamesClean, AllNamed;
    forall paths: set<Path> | AllNamed(paths, View(fs)) ensures |paths| < NODES {
      FewerNamed(fs, k, paths);
    }
  }

  lemma FewerNamed(fs: Fs, k: nat, paths: set<Path>)
    requires TreeOk(fs.dir) && |fs.st.files| == NODES && k < NODES && fs.dir[k].state == DELETED
    requires AllNamed(paths, View(fs))
    ensures |paths| < NODES
  {
    hide SiblingsDiffer, ParentsLive, Rooted, NamesClean, View, Lookup;
    forall c: Path | c in paths ensures Live(fs.dir, Lookup(fs.dir, c)) {
      NamedEntry(fs, c);
    }
    FewerThanEntries(fs.dir, k, paths);
  }

  lemma FewerThanEntries(t: Table, k: nat, paths: set<Path>)
    requires SiblingsDiffer(t) && ParentsLive(t) && k < |t| && t[k].state == DELETED
    requires forall c :: c in paths ==> Live(t, Lookup(t, c))
    ensures |paths| < |t|
  {
    var entries := Numbers(|t|) - {k + 1};
    hide Numbers, SiblingsDiffer, ParentsLive, Lookup;
    PathsAreEntries(t, paths, entries);
  }

  lemma NamedEntry(fs: Fs, c: Path)
    requires TreeOk(fs.dir) && |fs.st.files| == NODES && c in View(fs) && c != []
    ensures 1 <= Lookup(fs.dir, c) <= NODES && Live(fs.dir, Lookup(fs.dir, c))
  {
    LookupRange(fs.dir, c);
    if Lookup(fs.dir, c) == 0 {
      LookupInjective(fs.dir, c, []);
    }
  }

  /** Place finds a slot exactly when the picture has room for the path. */
  lemma PlacedInView(fs: Fs, path: string)
    requires FsOk(fs) && MayPlace(fs, path)
    ensures var c, v := Components(path), View(fs);
      && (Place(fs.dir, path).Slot? <==> c != [] && c !in v && c[..|c| - 1] in v && !Crowded(v))
      && (Place(fs.dir, path).NoSlot? <==> c != [] && c !in v && c[..|c| - 1] in v && Crowded(v))
  {
    hide SiblingsDiffer, ParentsLive, Rooted, NamesClean, StoreOk, Crowded;
    FullIsCrowded(fs);
    ResolveIsLookup(fs.dir, path);
    LookupRange(fs.dir, Components(path));
    if path != "/" {
      ResolveIsLookup(fs.dir, SuperPart(path));
      assert Components(path)[..|Components(path)| - 1] == Components(SuperPart(path));
      LookupRange(fs.dir, Components(SuperPart(path)));
    }
  }

  // ---- refinement ----

  lemma CreateRefines(fs: Fs, path: string)
    requires FsOk(fs) && Accepts(fs, Create(path))
    ensures var (fs', code) := CreateFile(fs, path);
      FsOk(fs') && (Shown(fs'), code) == Ideal(Shown(fs), Create(path))
  {
    hide SiblingsDiffer, ParentsLive, Rooted, NamesClean, StoreOk, NewFile, View, Crowded, Place;
    PlacedInView(fs, path);
    CreateOk(fs, path);
    if Place(fs.dir, path).Slot? {
      StoreLengths(fs.st, Count(fs));
      TwoFree(fs.st);
      NewFileFree(fs.st, Place(fs.dir, path).index);
    }
  }

  lemma MkdirRefines(fs: Fs, path: string)
    requires FsOk(fs) && Accepts(fs, Mkdir(path))
    ensures var (fs', code) := MakeDirectory(fs, path);
      FsOk(fs') && (Shown(fs'), code) == Ideal(Shown(fs), Mkdir(path))
  {
    hide SiblingsDiffer, ParentsLive, Rooted, NamesClean, StoreOk, View, Crowded, Place;
    PlacedInView(fs, path);
    MkdirOk(fs, path);
  }

  lemma AppendRefines(fs: Fs, path: string, bytes: seq<Byte>)
    requires FsOk(fs) && MayAppend(fs, path, |bytes|)
    ensures MayWrite(fs, path, bytes, fs.st.files[Resolve(fs.dir, path) - 1].size)
    ensures var (fs', code) := WriteFile(fs, path, bytes, fs.st.files[Resolve(fs.dir, path) - 1].size);
      FsOk(fs') && (Shown(fs'), code) == Ideal(Shown(fs), Append(path, bytes))
  {
    hide StoreOk, SiblingsDiffer, ParentsLive, Rooted, NamesClean, CanAppend, Resolve, Components, WriteLoop, View;
    var i: nat := Resolve(fs.dir, path) - 1;
    var off := fs.st.files[i].size;
    AppendMayWrite(fs, path, bytes);
    WriteOk(fs, path, bytes, off);
    WriteAppends(fs.st, Count(fs), i, bytes, off, off % BLOCK);
    FileInView(fs, path);
    assert bytes[..|bytes|] == bytes;
  }

  lemma FileInView(fs: Fs, path: string)
    requires FsOk(fs) && IsFile(fs, path)
    ensures var c, i := Components(path), Resolve(fs.dir, path) - 1;
      c in View(fs) && View(fs)[c] == File(Contents(fs.st, i))
  {
    ResolveIsLookup(fs.dir, path);
  }

  lemma UnlinkRefines(fs: Fs, path: string)
    requires FsOk(fs) && IsFile(fs, path)
    ensures var (fs', code) := UnlinkFile(fs, path);
      FsOk(fs') && (Shown(fs'), code) == Ideal(Shown(fs), Unlink(path))
  {
    hide StoreOk, SiblingsDiffer, ParentsLive, Rooted, NamesClean, Resolve, Components, View, Contents, HasChildren;
    UnlinkOk(fs, path);
    FileInView(fs, path);
  }

  lemma RmdirRefines(fs: Fs, path: string)
    requires FsOk(fs) && Accepts(fs, Rmdir(path))
    ensures var (fs', code) := RemoveDirectory(fs, path);
      FsOk(fs') && (Shown(fs'), code) == Ideal(Shown(fs), Rmdir(path))
  {
    hide StoreOk, SiblingsDiffer, ParentsLive, Rooted, NamesClean, View, Components, NoFilesUnder, Subtree;
    RmdirOk(fs, path);
    ResolveIsLookup(fs.dir, path);
  }

  lemma RenameRefines(fs: Fs, old_: string, new_: string)
    requires FsOk(fs) && MayRename(fs, old_, new_)
    ensures Absolute(old_) && Absolute(new_)
    ensures var (fs', code) := RenameEntry(fs, old_, new_);
      FsOk(fs') && (Shown(fs'), code) == Ideal(Shown(fs), Rename(old_, new_))
  {
    hide StoreOk, SiblingsDiffer, ParentsLive, Rooted, NamesClean, View, Components, MayMove, RenameEntry;
    RenameOk(fs, old_, new_);
  }

  /** One request: the server answers and changes what the plain file system says. */
  lemma ServeRefines(fs: Fs, r: Request)
    requires FsOk(fs) && Accepts(fs, r)
    ensures WellFormed(r)
    ensures var (fs', code) := Serve(fs, r); (Shown(fs'), code) == Ideal(Shown(fs), r)
  {
    TableSizes(fs);
    hide FsOk, CanAppend, MayRename, NoFilesUnder, Ideal, Shown;
    hide CreateFile, MakeDirectory, WriteFile, UnlinkFile, RemoveDirectory, RenameEntry;
    match r
    case Create(path) => CreateRefines(fs, path);
    case Mkdir(path) => MkdirRefines(fs, path);
    case Append(path, bytes) => AppendRefines(fs, path, bytes);
    case Unlink(path) => UnlinkRefines(fs, path);
    case Rmdir(path) => RmdirRefines(fs, path);
    case Rename(old_, new_) => RenameRefines(fs, old_, new_);
  }

  /** last is reached from fs by the requests rs, answered with codes. */
  ghost predicate Run(fs: Fs, rs: seq<Request>, codes: seq<int>, last: Fs)
    requires FsOk(fs)
    decreases |rs|
  {
    if rs == [] then codes == [] && last == fs
    else
      && Accepts(fs, rs[0]) && codes != []
      && codes[0] == Serve(fs, rs[0]).1
      && Run(Serve(fs, rs[0]).0, rs[1..], codes[1..], last)
  }

  ghost predicate IdealRun(p: Plain, rs: seq<Request>, codes: seq<int>, last: Plain)
    decreases |rs|
  {
    if rs == [] then codes == [] && last == p
    else
      && WellFormed(rs[0]) && codes != []
      && codes[0] == Ideal(p, rs[0]).1
      && IdealRun(Ideal(p, rs[0]).0, rs[1..], codes[1..], last)
  }

  /** Refinement over whole runs: the server answers as the plain file system does and ends as it; the
      tree is a tree, blocks are owned once, used and past the metadata. */
  lemma {:induction false} RunRefines(fs: Fs, rs: seq<Request>, codes: seq<int>, last: Fs)
    requires FsOk(fs) && Run(fs, rs, codes, last)
    ensures FsOk(last) && IdealRun(Shown(fs), rs, codes, Shown(last))
    decreases |rs|
  {
    hide Accepts, Serve, Ideal, Shown, FsOk;
    assert |fs.dir| == |fs.st.files| by { TableSizes(fs); }
    if rs != [] {
      ServeRefines(fs, rs[0]);
      RunRefines(Serve(fs, rs[0]).0, rs[1..], codes[1..], last);
    }
  }

  lemma TableSizes(fs: Fs)
    requires FsOk(fs)
    ensures |fs.dir| == |fs.st.files| == NODES && fs.st.base <= |fs.st.disk| <= |fs.st.used| <= WORD
  {
  }

  // ---- the requests as the tree of the node table sees them ----

  /** What a request other than a write does to the tree. */
  function TreeOf(r: Request): TreeRequest
    requires !r.Append?
  {
    match r
    case Create(path) => Add(path, FILE)
    case Mkdir(path) => Add(path, DIRECTORY)
    case Unlink(path) => RemoveOne(path)
    case Rmdir(path) => RemoveAll(path)
    case Rename(old_, new_) => Move(old_, new_)
  }

  /** The directory half of every request is the tree request of the same name; a write leaves it alone. */
  lemma ServesTree(fs: Fs, r: Request)
    requires FsOk(fs) && Accepts(fs, r)
    ensures r.Append? ==> Serve(fs, r).0.dir == fs.dir
    ensures !r.Append? ==> TreeAccepts(fs.dir, TreeOf(r)) && Serve(fs, r).0.dir == TreeServe(fs.dir, TreeOf(r))
  {
    hide SiblingsDiffer, ParentsLive, Rooted, NamesClean, StoreOk, View, MayMove, NewFile, WriteLoop;
    hide Components, NamePart, SuperPart, NoFilesUnder;
    match r
    case Create(path) => SlotName(fs, path);
    case Mkdir(path) => SlotName(fs, path);
    case Append(path, bytes) =>
    case Unlink(path) =>
    case Rmdir(path) =>
    case Rename(old_, new_) =>
  }

  lemma SlotName(fs: Fs, path: string)
    requires FsOk(fs) && MayPlace(fs, path)
    ensures Place(fs.dir, path).Slot? ==> Splittable(path) && CleanName(NamePart(path))
  {
  }

  // ---- what bitmap_free_blocks is worth ----

  lemma CreateCounts(fs: Fs, path: string)
    requires FsOk(fs) && Accepts(fs, Create(path)) && |fs.st.disk| <= |fs.st.used| && FreeCounted(fs.st)
    ensures var st := CreateFile(fs, path).0.st; |st.disk| <= |st.used| && FreeCounted(st)
  {
    hide SiblingsDiffer, ParentsLive, Rooted, NamesClean, StoreOk, NewFile, Place;
    CreateOk(fs, path);
    TableSizes(CreateFile(fs, path).0);
    if Place(fs.dir, path).Slot? {
      TableSizes(fs);
      TwoFree(fs.st);
      NewFileFree(fs.st, Place(fs.dir, path).index);
    }
  }

  lemma MkdirCounts(fs: Fs, path: string)
    requires FsOk(fs) && |fs.st.disk| <= |fs.st.used| && FreeCounted(fs.st) && Absolute(path)
    ensures var st := MakeDirectory(fs, path).0.st; |st.disk| <= |st.used| && FreeCounted(st)
  {
  }

  lemma AppendCounts(fs: Fs, path: string, bytes: seq<Byte>)
    requires FsOk(fs) && MayAppend(fs, path, |bytes|) && |fs.st.disk| <= |fs.st.used| && FreeCounted(fs.st)
    ensures MayWrite(fs, path, bytes, fs.st.files[Resolve(fs.dir, path) - 1].size)
    ensures var st := WriteFile(fs, path, bytes, fs.st.files[Resolve(fs.dir, path) - 1].size).0.st;
      |st.disk| <= |st.used| && FreeCounted(st)
  {
    hide StoreOk, SiblingsDiffer, ParentsLive, Rooted, NamesClean, CanAppend, Resolve, WriteLoop, FreeBlocks, NewBlocks;
    var i: nat := Resolve(fs.dir, path) - 1;
    var off := fs.st.files[i].size;
    AppendMayWrite(fs, path, bytes);
    WriteAppends(fs.st, Count(fs), i, bytes, off, off % BLOCK);
    MoreBlocks(off, Written(fs.st, i, bytes), |bytes|);
  }

  lemma UnlinkCounts(fs: Fs, path: string)
    requires FsOk(fs) && IsFile(fs, path) && |fs.st.disk| <= |fs.st.used| && FreeCounted(fs.st)
    ensures var st := UnlinkFile(fs, path).0.st; |st.disk| <= |st.used| && FreeCounted(st)
  {
  }

  /** A request keeps: when bitmap_free_blocks is 0 no block is free. */
  lemma ServeCounts(fs: Fs, r: Request)
    requires FsOk(fs) && Accepts(fs, r) && |fs.st.disk| <= |fs.st.used| && FreeCounted(fs.st)
    ensures var st := Serve(fs, r).0.st; |st.disk| <= |st.used| && FreeCounted(st)
  {
    hide FsOk, CanAppend, View, MayRename, NoFilesUnder, FreeCounted;
    hide CreateFile, MakeDirectory, WriteFile, UnlinkFile, RemoveDirectory, RenameEntry;
    match r
    case Create(path) => CreateCounts(fs, path);
    case Mkdir(path) => MkdirCounts(fs, path);
    case Append(path, bytes) => AppendCounts(fs, path, bytes);
    case Unlink(path) => UnlinkCounts(fs, path);
    case Rmdir(path) => RmdirOk(fs, path);
    case Rename(old_, new_) => RenameOk(fs, old_, new_);
  }

  lemma {:induction false} RunCounts(fs: Fs, rs: seq<Request>, codes: seq<int>, last: Fs)
    requires FsOk(fs) && |fs.st.disk| <= |fs.st.used| && FreeCounted(fs.st) && Run(fs, rs, codes, last)
    ensures |last.st.disk| <= |last.st.used| && FreeCounted(last.st)
    decreases |rs|
  {
    hide Accepts, Serve, FsOk, FreeCounted;
    if rs != [] {
      ServeCounts(fs, rs[0]);
      RunCounts(Serve(fs, rs[0]).0, rs[1..], codes[1..], last);
    }
  }

  /** In every state reached since the server counted the free blocks, o_write does the whole of an append
      when the disk has the blocks for it; without them, and with bitmap_free_blocks 0, it answers -1. */
  lemma WritesWhileRoom(fs: Fs, rs: seq<Request>, codes: seq<int>, last: Fs, path: string, bytes: seq<Byte>)
    requires FsOk(fs) && fs.st.free == ClearBits(fs.st.used, 0) && Run(fs, rs, codes, last)
    requires FsOk(last) && MayAppend(last, path, |bytes|)
    ensures |last.st.disk| <= |last.st.used|
    ensures var size := last.st.files[Resolve(last.dir, path) - 1].size;
      Serve(last, Append(path, bytes)).1
        == if |FreeBlocks(last.st)| >= NewBlocks(size, |bytes|) then |bytes| else -1
  {
    TableSizes(fs);
    StartIsCounted(fs.st);
    hide FsOk, FreeCounted, Serve, MayAppend;
    RunCounts(fs, rs, codes, last);
    AppendAnswer(last, path, bytes);
  }

  lemma AppendAnswer(fs: Fs, path: string, bytes: seq<Byte>)
    requires FsOk(fs) && |fs.st.disk| <= |fs.st.used| && FreeCounted(fs.st) && MayAppend(fs, path, |bytes|)
    ensures var size := fs.st.files[Resolve(fs.dir, path) - 1].size;
      Serve(fs, Append(path, bytes)).1 == if |FreeBlocks(fs.st)| >= NewBlocks(size, |bytes|) then |bytes| else -1
  {
    hide SiblingsDiffer, ParentsLive, Rooted, NamesClean, StoreOk, View, Resolve, Components, WriteLoop, NewBlocks;
    var off := fs.st.files[Resolve(fs.dir, path) - 1].size;
    AppendMayWrite(fs, path, bytes);
    WriteOk(fs, path, bytes, off);
    NewBlocksNeeded(off, |bytes|);
  }

  /** New blocks are needed exactly for what does not fit the last one. */
  lemma NewBlocksNeeded(size: nat, len: nat)
    ensures len <= SpaceLeft(size) <==> NewBlocks(size, len) <= 0
  {
    if len <= SpaceLeft(size) {
      NoNewBlock(size, len);
    } else {
      assert Blocks(size + len) > Blocks(size);
    }
  }

  // ---- from a formatted disk ----

  /** No live entry, and no data block used. */
  ghost predicate Formatted(fs: Fs) {
    && |fs.dir| == |fs.st.files| == NODES
    && fs.st.base <= |fs.st.disk| <= |fs.st.used| <= WORD
    && forall i :: 0 <= i < NODES ==> fs.dir[i].state == DELETED
  }

  lemma FormattedOk(fs: Fs)
    requires Formatted(fs)
    ensures FsOk(fs) && View(fs) == imap[[] := Dir]
  {
    assert Count(fs) == map[];
    assert TreeOk(fs.dir);
    forall c: Path ensures c in View(fs) <==> c == [] {
      LookupRange(fs.dir, c);
    }
  }

  /** What was appended is what a read of that range gives. */
  lemma ReadsBack(fs: Fs, path: string, buf: seq<Byte>, off: nat)
    requires MayWrite(fs, path, buf, off) && Written(fs.st, Resolve(fs.dir, path) - 1, buf) == |buf|
    ensures var fs' := WriteFile(fs, path, buf, off).0; var i := Resolve(fs.dir, path) - 1;
      && i < |fs'.st.files| && fs'.st.files[i].size == off + |buf|
      && Contents(fs'.st, i)[off..off + |buf|] == buf && Contents(fs'.st, i)[..off] == Contents(fs.st, i)
  {
    hide StoreOk, Contents, WriteLoop;
    WriteAppends(fs.st, Count(fs), Resolve(fs.dir, path) - 1, buf, off, off % BLOCK);
    assert buf[..|buf|] == buf;
  }

  /** Space: writing and then deleting a file gives back all blocks it took, unless it is still empty:
      then the two blocks of o_create stay used for ever. */
  lemma CreateWriteUnlinkSpace(st: Store, count: map<nat, nat>, k: nat, buf: seq<Byte>)
    requires StoreOk(st, count) && CountsOk(st, count) && k < |st.files| && k !in count
    requires |st.disk| <= |st.used| && |FreeBlocks(st)| >= 2 + NewBlocks(0, |buf|) && |buf| < MAX_SIZE
      && FreeCounted(st)
    ensures Taken(st) < |st.disk| && Taken(WithTaken(st, Taken(st))) < |st.disk|
    ensures CanAppend(NewFile(st, k), count[k := 1], k, buf, 0, 0)
    ensures var st2 := WriteLoop(NewFile(st, k), count[k := 1], k, buf, 0, 0).0;
      && |st2.files| == |st.files| && |st2.disk| <= |st2.used|
      && |FreeBlocks(Released(st2, k))| == |FreeBlocks(st)| - if buf == [] then 2 else 0
  {
    hide StoreOk, Contents, WriteLoop, Released, NewFile;
    MoreBlocks(0, 0, |buf|);
    StoreLengths(st, count);
    NewFileOk(st, count, k);
    var st1 := NewFile(st, k);
    NewFileFree(st, k);
    WriteAppends(st1, count[k := 1], k, buf, 0, 0);
    assert buf[..|buf|] == buf;
    var st2 := WriteLoop(st1, count[k := 1], k, buf, 0, 0).0;
    ReleaseFrees(st2, count[k := 1][k := Blocks(|buf|)], k);
  }

  lemma NewFileFree(st: Store, k: nat)
    requires k < |st.files| && st.base <= |st.disk| <= |st.used| <= WORD
    requires Taken(st) < |st.disk| && Taken(WithTaken(st, Taken(st))) < |st.disk|
    ensures NewFile(st, k).free == st.free
  {
  }
}
