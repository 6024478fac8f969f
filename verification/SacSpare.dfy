/** The marks agregarBloqueLibre leaves: behind its last block the index of a file is zero. They make
    the outcome of a long write from inside a block certain. */
module SacSpare {
  import opened SacPaths
  import opened SacTree
  import opened SacTreeOps
  import opened SacDisk
  import opened SacGrowth
  import opened SacWrite
  import opened SacRelease
  import opened SacFs
  import opened SacRuns

  /** The entries behind n data blocks: the rest of the last pointer block, and the next index entry. */
  ghost predicate SpareZero(st: Store, i: nat, n: nat)
    requires i < |st.files|
  {
    && (Pointers(n) < INDIRECT ==> st.files[i].index[Pointers(n)] == 0)
    && (forall j :: n <= j < Pointers(n) * PTRS ==> BlockOf(st.disk, st.files[i], Data(j)) == 0)
  }

  ghost predicate SparesZero(st: Store, count: map<nat, nat>) {
    forall i :: i in count ==> i < |st.files| && SpareZero(st, i, count[i])
  }

  lemma InLastPointer(n: nat, j: nat)
    requires n <= j < Pointers(n) * PTRS
    ensures n > 0 && j / PTRS == Pointers(n) - 1
  {
  }

  /** Only the last pointer block and the index matter. */
  lemma SpareKept(st: Store, st': Store, i: nat, n: nat)
    requires i < |st.files| && i < |st'.files| && st'.files[i].index == st.files[i].index
    requires n > 0 && Pointers(n) <= INDIRECT ==>
      var b := st.files[i].index[Pointers(n) - 1]; BlockAt(st'.disk, b) == BlockAt(st.disk, b)
    requires SpareZero(st, i, n)
    ensures SpareZero(st', i, n)
  {
    forall j | n <= j < Pointers(n) * PTRS ensures BlockOf(st'.disk, st'.files[i], Data(j)) == 0 {
      InLastPointer(n, j);
      assert BlockOf(st.disk, st.files[i], Data(j)) == 0;
    }
  }

  /** The last pointer block of a file is one of its blocks. */
  lemma LastPointerOwned(st: Store, count: map<nat, nat>, m: nat)
    requires StoreOk(st, count) && m in count && count[m] > 0
    ensures Pointers(count[m]) < INDIRECT && InFile(count[m], Pointer(Pointers(count[m]) - 1))
    ensures st.files[m].index[Pointers(count[m]) - 1] == BlockOf(st.disk, st.files[m], Pointer(Pointers(count[m]) - 1))
  {
  }

  /** Writing a block that is no pointer block of file m. */
  lemma SpareElsewhere(st: Store, count: map<nat, nat>, b: nat, blk: Block, m: nat)
    requires StoreOk(st, count) && m in count && b < |st.disk| && SpareZero(st, m, count[m])
    requires forall q :: InFile(count[m], q) && q.Pointer? ==> BlockOf(st.disk, st.files[m], q) != b
    ensures SpareZero(WithBlock(st, b, blk), m, count[m])
  {
    if count[m] > 0 {
      LastPointerOwned(st, count, m);
    }
    SpareKept(st, WithBlock(st, b, blk), m, count[m]);
  }

  lemma DataWrittenSpare(st: Store, count: map<nat, nat>, i: nat, j: nat, blk: Block)
    requires StoreOk(st, count) && SparesZero(st, count) && i in count && j < count[i]
      && DataBlock(st, i, j) < |st.disk|
    ensures SparesZero(WithBlock(st, DataBlock(st, i, j), blk), count)
  {
    hide SpareZero;
    assert InFile(count[i], Data(j));
    forall m | m in count ensures SpareZero(WithBlock(st, DataBlock(st, i, j), blk), m, count[m]) {
      SpareElsewhere(st, count, DataBlock(st, i, j), blk, m);
    }
  }

  lemma SizedSpare(st: Store, count: map<nat, nat>, i: nat, size: nat)
    requires SparesZero(st, count) && i < |st.files|
    ensures SparesZero(Sized(st, i, size), count)
  {
    forall m | m in count ensures m < |st.files| && SpareZero(Sized(st, i, size), m, count[m]) {
      SpareKept(st, Sized(st, i, size), m, count[m]);
    }
  }

  // ---- a file that grows by a block ----

  /** Before the block number is entered: its place and all behind it are zero. */
  ghost predicate GrowsInto(st: Store, i: nat, n: nat)
    requires i < |st.files|
  {
    && (n / PTRS + 1 < INDIRECT ==> st.files[i].index[n / PTRS + 1] == 0)
    && (forall j :: n <= j < (n / PTRS + 1) * PTRS ==> BlockOf(st.disk, st.files[i], Data(j)) == 0)
  }

  lemma WordSpare(st: Store, i: nat, n: nat, node: nat)
    requires i < |st.files| && n / PTRS < INDIRECT && node < WORD && GrowsInto(st, i, n)
    requires st.files[i].index[n / PTRS] < |st.disk|
    ensures var b := st.files[i].index[n / PTRS];
      SpareZero(WithBlock(st, b, PutWord(st.disk[b], n % PTRS, node)), i, n + 1)
  {
    var b := st.files[i].index[n / PTRS];
    var st' := WithBlock(st, b, PutWord(st.disk[b], n % PTRS, node));
    assert Pointers(n + 1) == n / PTRS + 1;
    forall j | n + 1 <= j < Pointers(n + 1) * PTRS ensures BlockOf(st'.disk, st'.files[i], Data(j)) == 0 {
      assert j / PTRS == n / PTRS && j % PTRS != n % PTRS;
      assert BlockOf(st.disk, st.files[i], Data(j)) == 0;
      PutGet(st.disk[b], n % PTRS, node, j % PTRS);
    }
  }

  /** A new pointer block is all zeros, and the next index entry is marked. */
  lemma PointerSpare(st: Store, i: nat, n: nat, b: nat)
    requires i < |st.files| && n % PTRS == 0 && n / PTRS < INDIRECT - 1 && b < |st.disk| && b < |st.used|
    ensures GrowsInto(WithPointer(st, i, n / PTRS, b), i, n)
  {
    var st' := WithPointer(st, i, n / PTRS, b);
    forall j | n <= j < (n / PTRS + 1) * PTRS ensures BlockOf(st'.disk, st'.files[i], Data(j)) == 0 {
      assert j / PTRS == n / PTRS;
    }
  }

  lemma AddBlockSpare(st: Store, count: map<nat, nat>, i: nat, node: nat)
    requires StoreOk(st, count) && SparesZero(st, count) && i in count && st.files[i].size < MAX_SIZE
    requires count[i] == st.files[i].size / BLOCK && node < WORD
    requires EntryIndex(st.files[i].size) == 0 ==> Taken(st) < |st.disk| && !InUse(st, Taken(st))
    requires EntryIndex(st.files[i].size) > 0 ==>
      BlockOf(st.disk, st.files[i], Pointer(PointerIndex(st.files[i].size))) < |st.disk|
    ensures SparesZero(AddBlock(st, i, node).0, count[i := count[i] + 1])
  {
    hide SpareZero, FirstClear;
    var size, n := st.files[i].size, count[i];
    PositionOfBlock(size);
    var k, e := PointerIndex(size), EntryIndex(size);
    var st1 := if e == 0 then WithPointer(st, i, k, Taken(st)) else st;
    var b := st1.files[i].index[k];
    var st2 := AddBlock(st, i, node).0;
    assert st2 == WithBlock(st1, b, PutWord(st1.disk[b], e, node));
    FirstWord(st, count, i);
    WordSpare(st1, i, n, node);
    if e == 0 {
      UnusedIsUnowned(st, count, b);
    } else {
      assert InFile(n, Pointer(k));
    }
    forall m | m in count && m != i ensures m < |st2.files| && SpareZero(st2, m, count[m]) {
      var blk := st2.disk[b];
      SpareElsewhere(st, count, b, blk, m);
      SpareKept(WithBlock(st, b, blk), st2, m, count[m]);
    }
  }

  /** The state in which the block number is entered. */
  lemma FirstWord(st: Store, count: map<nat, nat>, i: nat)
    requires StoreOk(st, count) && SparesZero(st, count) && i in count && st.files[i].size < MAX_SIZE
    requires count[i] == st.files[i].size / BLOCK
    requires EntryIndex(st.files[i].size) == 0 ==> Taken(st) < |st.disk|
    ensures var k := PointerIndex(st.files[i].size);
      && k < INDIRECT - 1
      && var st1 := if EntryIndex(st.files[i].size) == 0 then WithPointer(st, i, k, Taken(st)) else st;
      GrowsInto(st1, i, count[i])
  {
    var size, n := st.files[i].size, count[i];
    PositionOfBlock(size);
    if EntryIndex(size) == 0 {
      PointerSpare(st, i, n, Taken(st));
    } else {
      assert Pointers(n) == n / PTRS + 1;
    }
  }

  // ---- o_write ----

  lemma AppendedSpare(st: Store, count: map<nat, nat>, i: nat, j: nat, bytes: seq<Byte>)
    requires StoreOk(st, count) && SparesZero(st, count) && i in count && j < count[i]
      && DataBlock(st, i, j) < |st.disk|
    requires st.files[i].size % BLOCK + |bytes| <= BLOCK
    ensures SparesZero(Appended(st, i, DataBlock(st, i, j), bytes), count)
  {
    hide SparesZero;
    var size, b := st.files[i].size, DataBlock(st, i, j);
    var blk := Blit(st.disk[b], size % BLOCK, bytes);
    DataWrittenSpare(st, count, i, j, blk);
    SizedSpare(WithBlock(st, b, blk), count, i, size + |bytes|);
  }

  lemma TakenSpare(st: Store, count: map<nat, nat>, b: nat)
    requires SparesZero(st, count) && b < |st.used|
    ensures SparesZero(WithTaken(st, b), count)
  {
    forall m | m in count ensures m < |st.files| && SpareZero(WithTaken(st, b), m, count[m]) {
      SpareKept(st, WithTaken(st, b), m, count[m]);
    }
  }

  /** A block is taken and entered. */
  lemma GrownSpare(st: Store, count: map<nat, nat>, i: nat, len: nat)
    requires StoreOk(st, count) && CountsOk(st, count) && SparesZero(st, count) && i in count && len > 0
    requires var size := st.files[i].size; size > 0 && size % BLOCK == 0 && size < MAX_SIZE
    requires |FreeBlocks(st)| >= NewBlocks(st.files[i].size, len)
    ensures Taken(st) < |st.disk| <= |st.used| && StoreOk(WithTaken(st, Taken(st)), count)
    ensures var st0 := WithTaken(st, Taken(st));
      && (EntryIndex(st.files[i].size) == 0 ==> Taken(st0) < |st.disk|)
      && (EntryIndex(st.files[i].size) > 0 ==>
        BlockOf(st.disk, st.files[i], Pointer(PointerIndex(st.files[i].size))) < |st.disk|)
      && SparesZero(AddBlock(st0, i, Taken(st)).0, count[i := count[i] + 1])
  {
    hide SparesZero, AddBlock, FirstClear, BlockOf, NewBlocks;
    var size, b := st.files[i].size, Taken(st);
    BlockAdded(st, count, i, len);
    TakenKept(st, count, b);
    KeptOwned(st, WithTaken(st, b), count);
    TakenSpare(st, count, b);
    RoomForOne(st, size, len);
    TakenIsFree(st);
    if EntryIndex(size) == 0 {
      TakenIsFree(WithTaken(st, b));
    }
    AddBlockSpare(WithTaken(st, b), count, i, b);
  }

  lemma StepSpare(st: Store, count: map<nat, nat>, i: nat, buf: seq<Byte>)
    requires i < |st.files| && CanAppend(st, count, i, buf, st.files[i].size, st.files[i].size % BLOCK) && buf != []
    requires SparesZero(st, count)
    ensures var size := st.files[i].size;
      var step := WriteStep(st, count, i, buf, size, size % BLOCK);
      step.Wrote? ==> SparesZero(step.st, count[i := Blocks(size + step.taken)])
  {
    hide SparesZero, StoreOk, AddBlock, NewBlocks, FirstClear, BlockOf, Fill, Appended;
    var size := st.files[i].size;
    StoreLengths(st, count);
    StepBlocks(st, count, i, buf);
    if NeedsBlock(size, size) {
      if st.free != 0 {
        var taken := if |buf| <= BLOCK then |buf| else BLOCK;
        BlockAdded(st, count, i, |buf|);
        GrownSpare(st, count, i, |buf|);
        var st1 := AddBlock(WithTaken(st, Taken(st)), i, Taken(st)).0;
        FillAppends(st1, i, Taken(st), BLOCK, buf);
        OneNewBlock(size, taken);
        AppendedSpare(st1, count[i := count[i] + 1], i, count[i], buf[..taken]);
      }
    } else {
      var taken := if |buf| <= SpaceLeft(size) then |buf| else SpaceLeft(size);
      NoNewBlock(size, taken);
      FillAppends(st, i, DataBlock(st, i, size / BLOCK), SpaceLeft(size), buf);
      AppendedSpare(st, count, i, size / BLOCK, buf[..taken]);
      assert count[i := count[i]] == count;
    }
  }

  lemma {:induction false} LoopSpare(st: Store, count: map<nat, nat>, i: nat, buf: seq<Byte>, off: nat, at: nat)
    requires CanAppend(st, count, i, buf, off, at) && SparesZero(st, count)
    ensures var st' := WriteLoop(st, count, i, buf, off, at).0;
      i < |st'.files| && SparesZero(st', count[i := Blocks(st'.files[i].size)])
    decreases |buf|
  {
    hide SparesZero, WriteStep, StoreOk, NewBlocks, SpaceLeft;
    StoreLengths(st, count);
    assert count[i := Blocks(st.files[i].size)] == count;
    if buf != [] {
      StepOk(st, count, i, buf);
      StepSpare(st, count, i, buf);
      var step := WriteStep(st, count, i, buf, off, at);
      if step.Wrote? {
        LoopSpare(step.st, count[i := Blocks(off + step.taken)], i, buf[step.taken..], off + step.taken, 0);
        var st' := WriteLoop(st, count, i, buf, off, at).0;
        assert count[i := Blocks(off + step.taken)][i := Blocks(st'.files[i].size)]
          == count[i := Blocks(st'.files[i].size)];
      }
    }
  }

  // ---- the other requests, and runs ----

  lemma NewFileSpare(st: Store, count: map<nat, nat>, k: nat)
    requires StoreOk(st, count) && CountsOk(st, count) && SparesZero(st, count)
    requires k < |st.files| && k !in count && |FreeBlocks(st)| >= 2
    ensures Taken(st) < |st.disk| <= |st.used| && Taken(WithTaken(st, Taken(st))) < |st.disk|
    ensures SparesZero(NewFile(st, k), count[k := 1])
  {
    hide SpareZero, AddBlock, FirstClear;
    StoreLengths(st, count);
    TwoFree(st);
    var b, count0 := Taken(st), count[k := 0];
    var st1 := WithTaken(NewInode(st, k), b);
    NewFileTaken(st, count, k, b);
    InodeSpare(st, count, k);
    TakenSpare(NewInode(st, k), count0, b);
    AddBlockOk(st1, count0, k, b);
    AddBlockSpare(st1, count0, k, b);
    assert count0[k := 1] == count[k := 1];
    DataWrittenSpare(AddBlock(st1, k, b).0, count[k := 1], k, 0, Zeros());
  }

  /** The mark of a new file. */
  lemma InodeSpare(st: Store, count: map<nat, nat>, k: nat)
    requires SparesZero(st, count) && k < |st.files| && k !in count
    ensures SparesZero(NewInode(st, k), count[k := 0])
  {
    assert Pointers(0) == 0;
    forall m | m in count ensures m < |st.files| && SpareZero(NewInode(st, k), m, count[m]) {
      SpareKept(st, NewInode(st, k), m, count[m]);
    }
  }

  lemma ReleasedSpare(st: Store, count: map<nat, nat>, i: nat)
    requires SparesZero(st, count) && i < |st.files|
    ensures SparesZero(Released(st, i), count - {i})
  {
    forall m | m in count && m != i ensures m < |st.files| && SpareZero(Released(st, i), m, count[m]) {
      SpareKept(st, Released(st, i), m, count[m]);
    }
  }

  ghost predicate Spares(fs: Fs) {
    fs.st.base > 0 && SparesZero(fs.st, Count(fs))
  }

  lemma CreateSpares(fs: Fs, path: string)
    requires FsOk(fs) && Accepts(fs, Create(path)) && Spares(fs)
    ensures Spares(CreateFile(fs, path).0)
  {
    hide StoreOk, SiblingsDiffer, ParentsLive, Rooted, NamesClean, SparesZero, NewFile, Resolve, FirstClear, FreeBlocks;
    var place, fs' := Place(fs.dir, path), CreateFile(fs, path).0;
    if place.Slot? {
      CountsAlwaysOk(fs);
      StoreLengths(fs.st, Count(fs));
      TwoFree(fs.st);
      NewFileOk(fs.st, Count(fs), place.index);
      NewFileSpare(fs.st, Count(fs), place.index);
      CountWith(fs, fs', place.index);
      NewFileBase(fs.st, place.index);
    }
  }

  lemma NewFileBase(st: Store, k: nat)
    requires k < |st.files| && st.base <= |st.disk| <= |st.used| <= WORD
    requires Taken(st) < |st.disk| && Taken(WithTaken(st, Taken(st))) < |st.disk|
    ensures NewFile(st, k).base == st.base
  {
  }

  lemma MkdirSpares(fs: Fs, path: string)
    requires FsOk(fs) && Accepts(fs, Mkdir(path)) && Spares(fs)
    ensures Spares(MakeDirectory(fs, path).0)
  {
    hide StoreOk, SiblingsDiffer, ParentsLive, Rooted, NamesClean, SparesZero, Resolve;
    var place, fs' := Place(fs.dir, path), MakeDirectory(fs, path).0;
    if place.Slot? {
      CountWith(fs, fs', place.index);
      assert Count(fs') == Count(fs);
      SizedSpare(fs.st, Count(fs), place.index, 0);
    }
  }

  lemma AppendSpares(fs: Fs, path: string, buf: seq<Byte>, off: nat)
    requires MayWrite(fs, path, buf, off) && Spares(fs)
    ensures Spares(WriteFile(fs, path, buf, off).0)
  {
    hide StoreOk, SiblingsDiffer, ParentsLive, Rooted, NamesClean, SparesZero, WriteLoop, Contents, Resolve;
    var i: nat, fs' := Resolve(fs.dir, path) - 1, WriteFile(fs, path, buf, off).0;
    WriteAppends(fs.st, Count(fs), i, buf, off, off % BLOCK);
    LoopSpare(fs.st, Count(fs), i, buf, off, off % BLOCK);
    CountWith(fs, fs', i);
  }

  lemma UnlinkSpares(fs: Fs, path: string)
    requires FsOk(fs) && IsFile(fs, path) && Spares(fs)
    ensures Spares(UnlinkFile(fs, path).0)
  {
    var n := Resolve(fs.dir, path);
    FilesAreChildless(fs.dir, n);
    hide StoreOk, SiblingsDiffer, ParentsLive, Rooted, NamesClean, SparesZero, HasChildren, Resolve;
    CountWith(fs, UnlinkFile(fs, path).0, n - 1);
    ReleasedSpare(fs.st, Count(fs), n - 1);
  }

  lemma SameStoreSpares(fs: Fs, fs': Fs)
    requires Spares(fs) && fs'.st == fs.st && |fs'.dir| == |fs.dir|
    requires forall i :: 0 <= i < |fs.dir| ==> (fs'.dir[i].state == FILE <==> fs.dir[i].state == FILE)
    ensures Spares(fs')
  {
    assert Count(fs') == Count(fs);
  }

  lemma RmdirSpares(fs: Fs, path: string)
    requires FsOk(fs) && Accepts(fs, Rmdir(path)) && Spares(fs)
    ensures Spares(RemoveDirectory(fs, path).0)
  {
    hide StoreOk, TreeOk, Spares, Resolve;
    SameStoreSpares(fs, RemoveDirectory(fs, path).0);
  }

  lemma RenameSpares(fs: Fs, old_: string, new_: string)
    requires FsOk(fs) && MayRename(fs, old_, new_) && Spares(fs)
    ensures Spares(RenameEntry(fs, old_, new_).0)
  {
    hide StoreOk, SiblingsDiffer, ParentsLive, Rooted, NamesClean, Spares, Resolve, Lookup, Components, NamePart;
    hide SuperPart;
    if Resolve(fs.dir, old_) != -1 {
      MoverIsLive(fs.dir, Resolve(fs.dir, old_), Components(old_), Components(new_), Resolve(fs.dir, SuperPart(new_)));
      SameStoreSpares(fs, RenameEntry(fs, old_, new_).0);
    }
  }

  lemma ServeSpares(fs: Fs, r: Request)
    requires FsOk(fs) && Accepts(fs, r) && Spares(fs)
    ensures Spares(Serve(fs, r).0)
  {
    hide StoreOk, SiblingsDiffer, ParentsLive, Rooted, NamesClean, Spares, MayRename, CanAppend, View, NoFilesUnder;
    hide CreateFile, MakeDirectory, WriteFile, UnlinkFile, RemoveDirectory, RenameEntry;
    match r
    case Create(path) => CreateSpares(fs, path);
    case Mkdir(path) => MkdirSpares(fs, path);
    case Append(path, bytes) =>
      AppendMayWrite(fs, path, bytes);
      AppendSpares(fs, path, bytes, fs.st.files[Resolve(fs.dir, path) - 1].size);
    case Unlink(path) => UnlinkSpares(fs, path);
    case Rmdir(path) => RmdirSpares(fs, path);
    case Rename(old_, new_) => RenameSpares(fs, old_, new_);
  }

  /** The marks are there in every state a run reaches. */
  lemma {:induction false} RunSpares(fs: Fs, rs: seq<Request>, codes: seq<int>, last: Fs)
    requires FsOk(fs) && Spares(fs) && Run(fs, rs, codes, last)
    ensures FsOk(last) && Spares(last)
    decreases |rs|
  {
    hide Accepts, Serve, FsOk, Spares;
    if rs != [] {
      ServeSpares(fs, rs[0]);
      RunSpares(Serve(fs, rs[0]).0, rs[1..], codes[1..], last);
    }
  }

  lemma NothingSpare(st: Store, count: map<nat, nat>, i: nat)
    requires SparesZero(st, count) && CountsOk(st, count) && i in count && st.base > 0
    ensures NoSpare(st, i)
  {
    var n := count[i];
    if n % PTRS != 0 {
      assert n < Pointers(n) * PTRS;
    }
  }

  /** In every state reached from a formatted disk, at the end of any file whose last block has room, a
      turn of o_write appends exactly when the file ends at a block boundary or less than a block is
      written. */
  lemma ReachedTurnAppendsExactly(disk: Fs, rs: seq<Request>, codes: seq<int>, fs: Fs, i: nat, buf: seq<Byte>)
    requires Formatted(disk) && FsOk(disk) && disk.st.base > 0 && Run(disk, rs, codes, fs)
    requires i in Count(fs) && buf != [] && fs.st.files[i].size + |buf| < MAX_SIZE
    requires !NeedsBlock(fs.st.files[i].size, fs.st.files[i].size)
    ensures var st, size := fs.st, fs.st.files[i].size;
      && DataBlock(st, i, size / BLOCK) < |st.disk|
      && (|buf| < BLOCK ==> size % BLOCK + SpaceLeft(size) <= BLOCK)
      && var step := Fill(st, i, DataBlock(st, i, size / BLOCK), SpaceLeft(size), buf, size, size % BLOCK);
      step.taken <= |buf| &&
      (AppendedTo(st, step.st, Count(fs), i, buf[..step.taken]) <==> size % BLOCK == 0 || |buf| < BLOCK)
  {
    FormattedOk(disk);
    assert Count(disk) == map[];
    assert Spares(disk);
    hide Run, TreeOk, StoreOk, SparesZero, NoSpare, Fill, AppendedTo;
    RunSpares(disk, rs, codes, fs);
    CountsAlwaysOk(fs);
    NothingSpare(fs.st, Count(fs), i);
    TurnAppendsExactly(fs.st, Count(fs), i, buf);
  }
}
