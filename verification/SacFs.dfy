/** The file server as a whole: the operations on node table and disk, and the plain picture of a file
    system they keep, a map from paths to directories and byte strings. */
module SacFs {
  import opened SacPaths
  import opened SacTree
  import opened SacTreeOps
  import opened SacDisk
  import opened SacGrowth
  import opened SacWrite
  import opened SacRelease

  datatype Fs = Fs(dir: Table, st: Store)

  const EDQUOT: int := 122

  /** The live files and how many data blocks each has. */
  ghost function Count(fs: Fs): map<nat, nat> {
    map i: nat | i < |fs.dir| && i < |fs.st.files| && fs.dir[i].state == FILE :: Blocks(fs.st.files[i].size)
  }

  /** File sizes stay below what an int offset can reach. */
  ghost predicate SizesFit(fs: Fs) {
    forall i :: i in Count(fs) ==> fs.st.files[i].size < MAX_SIZE
  }

  ghost predicate FsOk(fs: Fs) {
    TreeOk(fs.dir) && |fs.st.files| == NODES && StoreOk(fs.st, Count(fs)) && SizesFit(fs)
  }

  // ================= the plain picture =================

  datatype Node = Dir | File(bytes: seq<Byte>)

  ghost function NodeAt(fs: Fs, n: nat): Node
    requires n <= |fs.dir| && |fs.dir| == |fs.st.files|
  {
    if n == 0 || fs.dir[n - 1].state != FILE then Dir else File(Contents(fs.st, n - 1))
  }

  type Picture = imap<Path, Node>

  /** What a user of the file system sees. */
  ghost function View(fs: Fs): Picture
    requires |fs.dir| == |fs.st.files|
  {
    imap c: Path | Lookup(fs.dir, c) >= 0 :: (LookupRange(fs.dir, c); NodeAt(fs, Lookup(fs.dir, c)))
  }

  /** Live entries of fs other than table entry i are the same in fs', files to the byte. */
  ghost predicate NodesKept(fs: Fs, fs': Fs, i: nat)
    requires |fs.dir| == |fs.st.files| && |fs'.dir| == |fs'.st.files|
  {
    && |fs'.dir| == |fs.dir|
    && forall n: nat :: n != i + 1 && (n == 0 || Live(fs.dir, n)) ==> NodeAt(fs', n) == NodeAt(fs, n)
  }

  lemma KeptNodes(fs: Fs, fs': Fs, i: nat)
    requires |fs.dir| == |fs.st.files| == |fs'.dir| == |fs'.st.files|
    requires forall j: nat :: j < |fs.dir| && j != i && fs.dir[j].state != DELETED ==>
      fs'.dir[j].state == fs.dir[j].state
    requires OthersKept(fs.st, fs'.st, Count(fs), i)
    ensures NodesKept(fs, fs', i)
  {
  }

  /** The count after table entry i became a file, or changed size, or went. */
  lemma CountWith(fs: Fs, fs': Fs, i: nat)
    requires |fs.dir| == |fs.st.files| == |fs'.dir| == |fs'.st.files| && i < |fs.dir|
    requires forall j: nat :: j < |fs.dir| && j != i ==>
      (fs'.dir[j].state == FILE <==> fs.dir[j].state == FILE)
        && (fs.dir[j].state == FILE ==> fs'.st.files[j].size == fs.st.files[j].size)
    ensures fs'.dir[i].state == FILE ==> Count(fs') == Count(fs)[i := Blocks(fs'.st.files[i].size)]
    ensures fs'.dir[i].state != FILE ==> Count(fs') == Count(fs) - {i}
  {
  }

  lemma CountsAlwaysOk(fs: Fs)
    ensures CountsOk(fs.st, Count(fs))
  {
  }

  // ================= o_create =================

  /** A table entry reused: size 0, and the first index entry 0 as a mark. */
  function NewInode(st: Store, k: nat): Store
    requires k < |st.files|
  {
    st.(files := st.files[k := Inode(0, st.files[k].index[0 := 0])])
  }

  /** The storage of a new file: a data block, its pointer block, and the data block cleared. */
  function NewFile(st: Store, k: nat): Store
    requires k < |st.files| && st.base <= |st.disk| <= |st.used| <= WORD
    requires Taken(st) < |st.disk| && Taken(WithTaken(st, Taken(st))) < |st.disk|
  {
    var b := Taken(st);
    var st1 := AddBlock(WithTaken(NewInode(st, k), b), k, b).0;
    WithBlock(st1, b, Zeros())
  }

  lemma TwoFree(st: Store)
    requires st.base <= |st.disk| <= |st.used| && |FreeBlocks(st)| >= 2
    ensures Taken(st) in FreeBlocks(st) && Taken(WithTaken(st, Taken(st))) in FreeBlocks(st) - {Taken(st)}
  {
    TakenIsFree(st);
    if FreeBlocks(st) - {Taken(st)} == {} {
      SubsetSize(FreeBlocks(st), {Taken(st)});
    }
    TakenIsFree(WithTaken(st, Taken(st)));
  }

  lemma NewFileOk(st: Store, count: map<nat, nat>, k: nat)
    requires StoreOk(st, count) && CountsOk(st, count) && k < |st.files| && k !in count && |FreeBlocks(st)| >= 2
    ensures Taken(st) < |st.disk| && Taken(WithTaken(st, Taken(st))) < |st.disk|
    ensures var st' := NewFile(st, k);
      && StoreOk(st', count[k := 1]) && st'.files[k].size == 0
      && OthersKept(st, st', count, k)
      && (forall m :: 0 <= m < |st.files| && m != k ==> st'.files[m].size == st.files[m].size)
      && |FreeBlocks(st')| == |FreeBlocks(st)| - 2
  {
    hide AddBlock, StoreOk, OthersKept, FirstClear, Zeros, Contents, BlockOf;
    StoreLengths(st, count);
    TwoFree(st);
    var b := Taken(st);
    var st1 := WithTaken(NewInode(st, k), b);
    NewFileTaken(st, count, k, b);
    AddBlockOk(st1, count[k := 0], k, b);
    var st2 := AddBlock(st1, k, b).0;
    assert count[k := 0][k := 1] == count[k := 1];
    DataWritten(st2, count[k := 1], k, 0, Zeros());
    assert FreeBlocks(NewFile(st, k)) == FreeBlocks(st2);
    TwoLess(FreeBlocks(st), b, Taken(st1));
    assert ShapeOk(st1, count[k := 0]) by { StoreIsShaped(st1, count[k := 0]); }
    NewFileKeeps(st, st1, st2, count, k, b);
  }

  /** The first block of a new file holds zeros. */
  lemma FirstBlockCleared(st: Store, count: map<nat, nat>, k: nat)
    requires StoreOk(st, count) && CountsOk(st, count) && k < |st.files| && k !in count && |FreeBlocks(st)| >= 2
    ensures Taken(st) < |st.disk| && Taken(WithTaken(st, Taken(st))) < |st.disk|
    ensures var st' := NewFile(st, k);
      DataBlock(st', k, 0) < |st'.disk| && forall x :: 0 <= x < BLOCK ==> st'.disk[DataBlock(st', k, 0)][x] == 0
  {
    hide AddBlock, StoreOk, FirstClear, Contents, BlockOf;
    StoreLengths(st, count);
    TwoFree(st);
    var b := Taken(st);
    NewFileTaken(st, count, k, b);
    var st1 := WithTaken(NewInode(st, k), b);
    AddBlockOk(st1, count[k := 0], k, b);
    assert count[k := 0][k := 1] == count[k := 1];
    var st2 := AddBlock(st1, k, b).0;
    DataWritten(st2, count[k := 1], k, 0, Zeros());
    assert InFile(1, Data(0));
  }

  lemma TwoLess(s: set<nat>, a: nat, b: nat)
    requires a in s && b in s - {a}
    ensures |s - {a} - {b}| == |s| - 2
  {
    assert s == s - {a} - {b} + {a, b};
  }

  lemma StoreIsShaped(st: Store, count: map<nat, nat>)
    requires StoreOk(st, count)
    ensures ShapeOk(st, count)
  {
  }

  /** The state in which o_create calls agregarBloqueLibre. */
  lemma NewFileTaken(st: Store, count: map<nat, nat>, k: nat, b: nat)
    requires StoreOk(st, count) && k < |st.files| && k !in count && b in FreeBlocks(st)
    ensures var st1 := WithTaken(NewInode(st, k), b);
      && StoreOk(st1, count[k := 0]) && st1.files[k].size == 0 && InUse(st1, b) && Unowned(st1, count[k := 0], b)
      && FreeBlocks(st1) == FreeBlocks(st) - {b} && Taken(st1) == Taken(WithTaken(st, b))
  {
    var st0, count0 := NewInode(st, k), count[k := 0];
    NewInodeOk(st, count, k);
    UnusedIsUnowned(st0, count0, b);
    TakenKept(st0, count0, b);
    KeptOwned(st0, WithTaken(st0, b), count0);
  }

  lemma NewInodeOk(st: Store, count: map<nat, nat>, k: nat)
    requires StoreOk(st, count) && k < |st.files| && k !in count
    ensures StoreOk(NewInode(st, k), count[k := 0]) && Kept(st, NewInode(st, k), count)
  {
    var st', count' := NewInode(st, k), count[k := 0];
    assert Pointers(0) == 0;
    forall m, q | m in count' && InFile(count'[m], q) ensures m in count && InFile(count[m], q)
      && st'.files[m] == st.files[m]
    {
    }
  }

  lemma NewFileKeeps(st: Store, st1: Store, st2: Store, count: map<nat, nat>, k: nat, b: nat)
    requires StoreOk(st, count) && CountsOk(st, count) && k < |st.files| && k !in count && b < |st.used|
      && b < |st2.disk|
    requires st1 == WithTaken(NewInode(st, k), b)
    requires ShapeOk(st1, count[k := 0]) && Kept(st1, st2, count[k := 0])
    requires forall m :: m in count ==> SameBlocks(st2, WithBlock(st2, b, Zeros()), m, count[m])
    ensures OthersKept(st, WithBlock(st2, b, Zeros()), count, k)
  {
    hide StoreOk, Contents, ByteAt;
    var st' := WithBlock(st2, b, Zeros());
    forall m | m in count ensures m < |st2.files| && st2.files[m].size == st.files[m].size
      && Contents(st', m) == Contents(st, m)
    {
      KeptSame(st1, st2, count[k := 0], m);
      SameContents(st1, st2, m);
      SameContents(st2, st', m);
      SameContents(st, st1, m);
    }
  }

  // ================= the operations =================

  ghost predicate RoomForFile(fs: Fs, path: string)
    requires Absolute(path)
  {
    FsOk(fs) && (Place(fs.dir, path).Slot? ==> |FreeBlocks(fs.st)| >= 2)
  }

  /** o_create */
  function CreateFile(fs: Fs, path: string): (Fs, int)
    requires Absolute(path) && RoomForFile(fs, path)
  {
    var place := Place(fs.dir, path);
    if place.NoSlot? then (fs, -EDQUOT)
    else if !place.Slot? then (fs, 1)
    else
      TwoFree(fs.st);
      (Fs(WithEntry(fs.dir, place.index, Entry(FILE, NamePart(path), place.parent)), NewFile(fs.st, place.index)), 0)
  }

  /** o_mkdir */
  function MakeDirectory(fs: Fs, path: string): (Fs, int)
    requires Absolute(path) && |fs.dir| == |fs.st.files|
  {
    var place := Place(fs.dir, path);
    if !place.Slot? then (fs, 1)
    else
      (Fs(WithEntry(fs.dir, place.index, Entry(DIRECTORY, NamePart(path), place.parent)),
        Sized(fs.st, place.index, 0)), 0)
  }

  ghost predicate IsFile(fs: Fs, path: string) {
    && Absolute(path)
    && var n := Resolve(fs.dir, path); 1 <= n <= |fs.dir| && fs.dir[n - 1].state == FILE
  }

  /** What o_write needs: a file, an offset at its end, and a short or block-aligned write for which the
      disk has room. */
  ghost predicate MayWrite(fs: Fs, path: string, buf: seq<Byte>, off: nat) {
    && FsOk(fs) && IsFile(fs, path)
    && off == fs.st.files[Resolve(fs.dir, path) - 1].size
    && CanAppend(fs.st, Count(fs), Resolve(fs.dir, path) - 1, buf, off, off % BLOCK)
  }

  /** o_write: the number of bytes, or -1 */
  function WriteFile(fs: Fs, path: string, buf: seq<Byte>, off: nat): (Fs, int)
    requires MayWrite(fs, path, buf, off)
  {
    var (st, r) := WriteLoop(fs.st, Count(fs), Resolve(fs.dir, path) - 1, buf, off, off % BLOCK);
    (fs.(st := st), if r == 0 then |buf| else r)
  }

  /** o_unlink of a file, with o_rmdir2 */
  ghost function UnlinkFile(fs: Fs, path: string): (Fs, int)
    requires FsOk(fs) && IsFile(fs, path)
  {
    var n := Resolve(fs.dir, path);
    var st := Released(fs.st, n - 1);
    if HasChildren(fs.dir, n) then (fs.(st := st), -1)
    else (Fs(fs.dir[n - 1 := Deleted(fs.dir[n - 1])], st), 0)
  }

  /** o_rename */
  function RenameEntry(fs: Fs, old_: string, new_: string): (Fs, int)
    requires Absolute(old_) && Resolve(fs.dir, old_) != 0 && (Resolve(fs.dir, old_) != -1 ==> Splittable(new_))
  {
    var n := Resolve(fs.dir, old_);
    ResolveIsLookup(fs.dir, old_);
    LookupRange(fs.dir, Components(old_));
    if n == -1 then (fs, -1)
    else (fs.(dir := Renamed(fs.dir, n, NamePart(new_), Resolve(fs.dir, SuperPart(new_)))), 0)
  }

  /** o_rmdir, for a subtree without files */
  ghost function RemoveDirectory(fs: Fs, path: string): (Fs, int)
    requires Absolute(path)
  {
    if Resolve(fs.dir, path) == -1 then (fs, -1)
    else (fs.(dir := Without(fs.dir, Subtree(fs.dir, Components(path)))), 0)
  }

  // ---- what each keeps, and what it changes in the picture ----

  lemma ViewAdded(fs: Fs, fs': Fs, k: nat, e: Entry, c: Path)
    requires TreeOk(fs.dir) && |fs.st.files| == |fs'.st.files| == NODES
    requires MayAdd(fs.dir, k, e, c) && fs'.dir == WithEntry(fs.dir, k, e) && NodesKept(fs, fs', k)
    ensures View(fs') == View(fs)[c := NodeAt(fs', k + 1)]
  {
    forall q: Path
      ensures q in View(fs') <==> q in View(fs)[c := NodeAt(fs', k + 1)]
      ensures q in View(fs') ==> View(fs')[q] == View(fs)[c := NodeAt(fs', k + 1)][q]
    {
      AddedLookup(fs.dir, k, e, c, q);
      LookupRange(fs.dir, q);
    }
  }

  lemma CreateOk(fs: Fs, path: string)
    requires Absolute(path) && RoomForFile(fs, path)
    requires Place(fs.dir, path).Slot? ==> CleanName(NamePart(path)) && IsDirectory(fs.dir, Place(fs.dir, path).parent)
    ensures var (fs', r) := CreateFile(fs, path);
      && FsOk(fs')
      && (r == 0 <==> Place(fs.dir, path).Slot?)
      && View(fs') == if r == 0 then View(fs)[Components(path) := File([])] else View(fs)
  {
    hide SiblingsDiffer, ParentsLive, Rooted, NamesClean;
    var place := Place(fs.dir, path);
    if place.Slot? {
      var k, c, fs' := place.index, Components(path), CreateFile(fs, path).0;
      var e := Entry(FILE, NamePart(path), place.parent);
      hide NewFile, StoreOk, Place;
      PlacedMayAdd(fs.dir, path, FILE);
      AddedTreeOk(fs.dir, k, e, c);
      CountsAlwaysOk(fs);
      TwoFree(fs.st);
      NewFileOk(fs.st, Count(fs), k);
      CountWith(fs, fs', k);
      KeptNodes(fs, fs', k);
      ViewAdded(fs, fs', k, e, c);
      assert Contents(fs'.st, k) == [];
    }
  }

  lemma MkdirOk(fs: Fs, path: string)
    requires Absolute(path) && FsOk(fs)
    requires Place(fs.dir, path).Slot? ==> CleanName(NamePart(path)) && IsDirectory(fs.dir, Place(fs.dir, path).parent)
    ensures var (fs', r) := MakeDirectory(fs, path);
      && FsOk(fs')
      && (r == 0 <==> Place(fs.dir, path).Slot?)
      && View(fs') == if r == 0 then View(fs)[Components(path) := Dir] else View(fs)
  {
    hide SiblingsDiffer, ParentsLive, Rooted, NamesClean;
    var place := Place(fs.dir, path);
    if place.Slot? {
      var k, c, fs' := place.index, Components(path), MakeDirectory(fs, path).0;
      var e := Entry(DIRECTORY, NamePart(path), place.parent);
      hide StoreOk, Place;
      PlacedMayAdd(fs.dir, path, DIRECTORY);
      AddedTreeOk(fs.dir, k, e, c);
      CountWith(fs, fs', k);
      SizedElsewhere(fs.st, Count(fs), k, 0);
      assert Count(fs') == Count(fs);
      KeptNodes(fs, fs', k);
      ViewAdded(fs, fs', k, e, c);
    }
  }

  /** A new directory has size 0, and no block changes. */
  lemma NewDirectoryEmpty(fs: Fs, path: string)
    requires Absolute(path) && FsOk(fs) && Place(fs.dir, path).Slot?
    ensures var (fs', r) := MakeDirectory(fs, path);
      var i := Place(fs.dir, path).index;
      && r == 0 && |fs'.st.files| == |fs.st.files| && fs'.st.files[i].size == 0
      && (forall m :: 0 <= m < |fs.st.files| && m != i ==> fs'.st.files[m] == fs.st.files[m])
      && fs'.st.disk == fs.st.disk && fs'.st.used == fs.st.used && fs'.st.free == fs.st.free
  {
    hide Place;
  }

  lemma SizedElsewhere(st: Store, count: map<nat, nat>, k: nat, size: nat)
    requires StoreOk(st, count) && k < |st.files| && k !in count
    ensures StoreOk(Sized(st, k, size), count) && OthersKept(st, Sized(st, k, size), count, k)
  {
    SizedOk(st, count, k, size);
    forall m | m in count ensures m < |st.files| && Contents(Sized(st, k, size), m) == Contents(st, m) {
      SameContents(st, Sized(st, k, size), m);
    }
  }

  lemma WriteOk(fs: Fs, path: string, buf: seq<Byte>, off: nat)
    requires MayWrite(fs, path, buf, off)
    ensures var (fs', r) := WriteFile(fs, path, buf, off);
      var n := Resolve(fs.dir, path);
      var w := Written(fs.st, n - 1, buf);
      && FsOk(fs')
      && r == (if w == |buf| then w else -1)
      && Components(path) in View(fs) && View(fs)[Components(path)].File?
      && View(fs') == View(fs)[Components(path) := File(View(fs)[Components(path)].bytes + buf[..w])]
  {
    hide StoreOk, WriteLoop, Contents, SpaceLeft;
    var n := Resolve(fs.dir, path);
    var fs' := WriteFile(fs, path, buf, off).0;
    var w := Written(fs.st, n - 1, buf);
    WriteAppends(fs.st, Count(fs), n - 1, buf, off, off % BLOCK);
    assert |fs'.st.files| == NODES;
    CountWith(fs, fs', n - 1);
    ResolveIsLookup(fs.dir, path);
    KeptNodes(fs, fs', n - 1);
    ViewChanged(fs, fs', n - 1, Components(path));
  }

  /** Only the bytes of one entry changed. */
  lemma ViewChanged(fs: Fs, fs': Fs, i: nat, c: Path)
    requires TreeOk(fs.dir) && fs'.dir == fs.dir && |fs.st.files| == |fs'.st.files| == NODES
    requires i < NODES && Lookup(fs.dir, c) == i + 1 && NodesKept(fs, fs', i)
    ensures c in View(fs) && View(fs') == View(fs)[c := NodeAt(fs', i + 1)]
  {
    forall q: Path
      ensures q in View(fs') <==> q in View(fs)[c := NodeAt(fs', i + 1)]
      ensures q in View(fs') ==> View(fs')[q] == View(fs)[c := NodeAt(fs', i + 1)][q]
    {
      LookupRange(fs.dir, q);
      if Lookup(fs.dir, q) == i + 1 {
        LookupInjective(fs.dir, q, c);
      }
    }
  }
}
