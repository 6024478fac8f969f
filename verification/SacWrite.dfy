/** o_write, for writes that start at the end of the file (Sac-Server/operaciones.c). */
module SacWrite {
  import opened SacDisk
  import opened SacGrowth

  /** memcpy into a block */
  function Blit(b: Block, at: nat, bytes: seq<Byte>): Block
    requires at + |bytes| <= BLOCK
  {
    b[..at] + bytes + b[at + |bytes|..]
  }

  /** espacioEnBloque: the room left in the last block; a file of size 0 has its block already. */
  function SpaceLeft(size: nat): nat {
    if size == 0 then BLOCK else if size % BLOCK == 0 then 0 else BLOCK - size % BLOCK
  }

  function Sized(st: Store, i: nat, size: nat): Store
    requires i < |st.files|
  {
    st.(files := st.files[i := st.files[i].(size := size)])
  }

  datatype Step = Wrote(st: Store, taken: nat) | Failed(st: Store, code: int)

  /** The second half of the loop of o_write: a full block, or the rest of the buffer, or as much of it
      as fits. b is the block to write, space the room in it, at the offset in it. */
  function Fill(st: Store, i: nat, b: nat, space: nat, buf: seq<Byte>, off: nat, at: nat): Step
    requires i < |st.files| && b < |st.disk|
    requires |buf| < BLOCK ==> at + |buf| <= BLOCK || at + space <= BLOCK
    requires |buf| < BLOCK && |buf| <= space ==> at + |buf| <= BLOCK
  {
    var size := st.files[i].size;
    if |buf| >= BLOCK then
      Wrote(Sized(WithBlock(st, b, buf[..BLOCK]), i, if size <= off then size + BLOCK else size), BLOCK)
    else if |buf| <= space then
      Wrote(Sized(WithBlock(st, b, Blit(st.disk[b], at, buf)), i,
                  if size <= off then size + |buf| else if size <= off + |buf| then off + |buf| else size), |buf|)
    else
      Wrote(Sized(WithBlock(st, b, Blit(st.disk[b], at, buf[..space])), i, size + space), space)
  }

  /** What a turn copies: the bytes taken go into the block, from its start when they fill it and from at
      otherwise; the rest of the block, the other blocks and files, and the index stay. */
  lemma FillCopies(st: Store, i: nat, b: nat, space: nat, buf: seq<Byte>, off: nat, at: nat)
    requires i < |st.files| && b < |st.disk|
    requires |buf| < BLOCK ==> at + |buf| <= BLOCK || at + space <= BLOCK
    requires |buf| < BLOCK && |buf| <= space ==> at + |buf| <= BLOCK
    ensures var step, from := Fill(st, i, b, space, buf, off, at), if |buf| >= BLOCK then 0 else at;
      && step.Wrote? && step.taken == (if |buf| >= BLOCK then BLOCK else if |buf| <= space then |buf| else space)
      && |step.st.disk| == |st.disk| && |step.st.files| == |st.files|
      && (forall x :: 0 <= x < BLOCK ==>
            step.st.disk[b][x] == if from <= x < from + step.taken then buf[x - from] else st.disk[b][x])
      && (forall c :: 0 <= c < |st.disk| && c != b ==> step.st.disk[c] == st.disk[c])
      && (forall m :: 0 <= m < |st.files| && m != i ==> step.st.files[m] == st.files[m])
      && step.st.files[i].index == st.files[i].index
      && step.st.used == st.used && step.st.free == st.free && step.st.base == st.base
  {
  }

  /** A turn at or before the end of the file leaves the size that covers both the old file and what was
      written exactly when it starts at the end, writes a whole block inside the file, or fits the room the
      last block has. */
  lemma FillSizeExactly(st: Store, i: nat, b: nat, space: nat, buf: seq<Byte>, off: nat, at: nat)
    requires i < |st.files| && b < |st.disk| && off <= st.files[i].size
    requires |buf| < BLOCK ==> at + |buf| <= BLOCK || at + space <= BLOCK
    requires |buf| < BLOCK && |buf| <= space ==> at + |buf| <= BLOCK
    ensures var size, step := st.files[i].size, Fill(st, i, b, space, buf, off, at);
      step.st.files[i].size == (if size < off + step.taken then off + step.taken else size)
      <==> (off == size
            || if |buf| >= BLOCK then off + BLOCK <= size else |buf| <= space || space == 0)
  {
  }

  /** Where an offset of the file is, through settearPosicion. */
  function BlockAtOffset(st: Store, i: nat, off: nat): nat
    requires i < |st.files| && PointerIndex(off) < INDIRECT
  {
    GetWord(BlockAt(st.disk, st.files[i].index[PointerIndex(off)]), EntryIndex(off))
  }

  predicate NeedsBlock(size: nat, off: nat) {
    off >= size + SpaceLeft(size) && size != 0
  }

  /** How many blocks, data and pointer, len more bytes need. */
  function NewBlocks(size: nat, len: nat): int {
    Blocks(size + len) + Pointers(Blocks(size + len)) - Blocks(size) - Pointers(Blocks(size))
  }

  ghost predicate CountsOk(st: Store, count: map<nat, nat>) {
    forall m :: m in count ==> m < |st.files| && count[m] == Blocks(st.files[m].size)
  }

  /** The disk has the blocks that len more bytes need, or bitmap_free_blocks is 0: then o_write takes
      none. */
  ghost predicate HasRoom(st: Store, size: nat, len: nat)
    requires |st.disk| <= |st.used|
  {
    st.free == 0 || |FreeBlocks(st)| >= NewBlocks(size, len)
  }

  /** A write of buf at the end of file i: short, or block-aligned. off and at are the loop's off and
      offsetEnBloque. */
  ghost predicate CanAppend(st: Store, count: map<nat, nat>, i: nat, buf: seq<Byte>, off: nat, at: nat) {
    && StoreOk(st, count) && CountsOk(st, count) && i in count
    && st.files[i].size + |buf| < MAX_SIZE
    && HasRoom(st, st.files[i].size, |buf|)
    && (buf != [] ==> off == st.files[i].size && at == off % BLOCK && (at == 0 || |buf| < BLOCK))
  }

  // ---- arithmetic of block counts ----

  lemma NoNewBlock(size: nat, len: nat)
    requires len <= SpaceLeft(size)
    ensures Blocks(size + len) == Blocks(size) && NewBlocks(size, len) == 0
    ensures size > 0 && size % BLOCK > 0 ==> size / BLOCK == Blocks(size) - 1
    ensures size == 0 ==> size / BLOCK == Blocks(size) - 1
  {
  }

  lemma OneNewBlock(size: nat, len: nat)
    requires size > 0 && size % BLOCK == 0 && 0 < len <= BLOCK
    ensures Blocks(size) == size / BLOCK && Blocks(size + len) == size / BLOCK + 1
    ensures NewBlocks(size, len) == 1 + if EntryIndex(size) == 0 then 1 else 0
  {
    PositionOfBlock(size);
  }

  lemma {:induction false} MoreBlocks(size: nat, a: nat, b: nat)
    requires a <= b
    ensures 0 <= NewBlocks(size, a) <= NewBlocks(size, b)
    ensures NewBlocks(size, b) == NewBlocks(size, a) + NewBlocks(size + a, b - a)
  {
    assert Blocks(size) <= Blocks(size + a) <= Blocks(size + b);
  }

  // ---- one turn of the loop ----

  /** The turn of the loop: find or add the block, then fill it. */
  function WriteStep(st: Store, ghost count: map<nat, nat>, i: nat, buf: seq<Byte>, off: nat, at: nat): Step
    requires CanAppend(st, count, i, buf, off, at) && buf != []
  {
    var size := st.files[i].size;
    StepBlocks(st, count, i, buf);
    if NeedsBlock(size, off) then
      if st.free == 0 then Failed(st, -1)
      else
        var b := Taken(st);
        var (st1, r) := AddBlock(WithTaken(st, b), i, b);
        if r != 0 then Failed(st1, r) else Fill(st1, i, b, BLOCK, buf, off, at)
    else Fill(st, i, BlockAtOffset(st, i, off), SpaceLeft(size), buf, off, at)
  }

  /** The blocks a turn reads or takes exist. */
  lemma StepBlocks(st: Store, count: map<nat, nat>, i: nat, buf: seq<Byte>)
    requires i < |st.files| && CanAppend(st, count, i, buf, st.files[i].size, st.files[i].size % BLOCK) && buf != []
    ensures var size := st.files[i].size;
      if NeedsBlock(size, size) then
        st.free != 0 ==>
        && size % BLOCK == 0 && Taken(st) in FreeBlocks(st)
        && (EntryIndex(size) == 0 ==> Taken(WithTaken(st, Taken(st))) < |st.disk|)
        && (EntryIndex(size) > 0 ==> BlockOf(st.disk, st.files[i], Pointer(PointerIndex(size))) < |st.disk|)
      else
        && PointerIndex(size) < INDIRECT && BlockAtOffset(st, i, size) == DataBlock(st, i, size / BLOCK)
        && BlockAtOffset(st, i, size) < |st.disk| && size / BLOCK == count[i] - 1
        && size % BLOCK + SpaceLeft(size) == BLOCK
  {
    var size := st.files[i].size;
    PositionOfBlock(size);
    if NeedsBlock(size, size) && st.free != 0 {
      RoomForOne(st, size, |buf|);
      TakenIsFree(st);
      var st1 := WithTaken(st, Taken(st));
      if EntryIndex(size) == 0 {
        TakenIsFree(st1);
      } else {
        assert InFile(count[i], Pointer(PointerIndex(size)));
      }
    } else if !NeedsBlock(size, size) {
      NoNewBlock(size, 0);
      assert InFile(count[i], Data(size / BLOCK));
    }
  }

  /** The pointer block of the last data block exists. */
  lemma LastPointer(st: Store, count: map<nat, nat>, i: nat)
    requires StoreOk(st, count) && CountsOk(st, count) && i in count && st.files[i].size < MAX_SIZE
    requires !NeedsBlock(st.files[i].size, st.files[i].size)
    ensures PointerIndex(st.files[i].size) < INDIRECT && st.files[i].index[PointerIndex(st.files[i].size)] < |st.disk|
  {
    var size := st.files[i].size;
    PositionOfBlock(size);
    NoNewBlock(size, 0);
    PointerOfData(count[i], size / BLOCK);
    assert InFile(count[i], Pointer(size / BLOCK / PTRS));
  }

  lemma RoomForOne(st: Store, size: nat, len: nat)
    requires |st.disk| <= |st.used| && size > 0 && size % BLOCK == 0 && len > 0
    requires |FreeBlocks(st)| >= NewBlocks(size, len)
    ensures FreeBlocks(st) != {}
    ensures EntryIndex(size) == 0 ==> forall b :: FreeBlocks(st) - {b} != {}
  {
    OneNewBlock(size, 1);
    MoreBlocks(size, 1, len);
    if EntryIndex(size) == 0 {
      forall b ensures FreeBlocks(st) - {b} != {} {
        if FreeBlocks(st) - {b} == {} {
          assert FreeBlocks(st) <= {b};
          SubsetSize(FreeBlocks(st), {b});
        }
      }
    }
  }

  lemma {:induction false} SubsetSize(a: set<nat>, b: set<nat>)
    requires a <= b
    ensures |a| <= |b|
  {
    assert a + (b - a) == b;
  }

  /** The other live files are untouched, to the byte. */
  ghost predicate OthersKept(st: Store, st': Store, count: map<nat, nat>, i: nat) {
    && |st'.files| == |st.files|
    && forall m :: m in count && m != i ==>
      m < |st.files| && st'.files[m].size == st.files[m].size && Contents(st', m) == Contents(st, m)
  }

  /** The state in which the bytes were put behind the end of file i. */
  function Appended(st: Store, i: nat, b: nat, bytes: seq<Byte>): Store
    requires i < |st.files| && b < |st.disk| && st.files[i].size % BLOCK + |bytes| <= BLOCK
  {
    var size := st.files[i].size;
    Sized(WithBlock(st, b, Blit(st.disk[b], size % BLOCK, bytes)), i, size + |bytes|)
  }

  /** Each of the three branches appends what it takes. */
  lemma FillAppends(st: Store, i: nat, b: nat, space: nat, buf: seq<Byte>)
    requires i < |st.files| && b < |st.disk| && buf != []
    requires var size := st.files[i].size;
      size % BLOCK + space == BLOCK && (size % BLOCK == 0 || |buf| < BLOCK)
    ensures var taken := if |buf| <= space then |buf| else space;
      Fill(st, i, b, space, buf, st.files[i].size, st.files[i].size % BLOCK)
        == Wrote(Appended(st, i, b, buf[..taken]), taken)
  {
    if |buf| >= BLOCK {
      assert Blit(st.disk[b], 0, buf[..BLOCK]) == buf[..BLOCK];
    } else {
      assert buf[..|buf|] == buf;
    }
  }

  lemma AppendedOk(st: Store, count: map<nat, nat>, i: nat, b: nat, bytes: seq<Byte>)
    requires StoreOk(st, count) && i in count && bytes != []
    requires var size := st.files[i].size;
      count[i] == size / BLOCK + 1 && b == DataBlock(st, i, size / BLOCK) && size % BLOCK + |bytes| <= BLOCK
    ensures b < |st.disk|
    ensures var st' := Appended(st, i, b, bytes);
      && StoreOk(st', count)
      && st'.files[i].size == st.files[i].size + |bytes| && Contents(st', i) == Contents(st, i) + bytes
      && (forall m :: m in count && m != i ==> st'.files[m] == st.files[m] && SameBlocks(st, st', m, count[m]))
  {
    var size, j := st.files[i].size, st.files[i].size / BLOCK;
    assert InFile(count[i], Data(j));
    var blk := Blit(st.disk[b], size % BLOCK, bytes);
    DataWritten(st, count, i, j, blk);
    SizedOk(WithBlock(st, b, blk), count, i, size + |bytes|);
    AppendedBytes(st, count, i, bytes);
  }

  /** The size of a file plays no part in who owns what. */
  lemma SizedOk(st: Store, count: map<nat, nat>, i: nat, size: nat)
    requires StoreOk(st, count) && i < |st.files|
    ensures StoreOk(Sized(st, i, size), count)
    ensures forall m: nat, q :: m < |st.files| ==>
      BlockOf(st.disk, Sized(st, i, size).files[m], q) == BlockOf(st.disk, st.files[m], q)
  {
  }

  lemma AppendedBytes(st: Store, count: map<nat, nat>, i: nat, bytes: seq<Byte>)
    requires StoreOk(st, count) && i in count && bytes != []
    requires var size := st.files[i].size;
      count[i] == size / BLOCK + 1 && size % BLOCK + |bytes| <= BLOCK && DataBlock(st, i, size / BLOCK) < |st.disk|
    ensures var size, b := st.files[i].size, DataBlock(st, i, st.files[i].size / BLOCK);
      Contents(Sized(WithBlock(st, b, Blit(st.disk[b], size % BLOCK, bytes)), i, size + |bytes|), i)
        == Contents(st, i) + bytes
  {
    var size, j := st.files[i].size, st.files[i].size / BLOCK;
    var b := DataBlock(st, i, j);
    var blk := Blit(st.disk[b], size % BLOCK, bytes);
    var st1 := WithBlock(st, b, blk);
    var st' := Sized(st1, i, size + |bytes|);
    DataWritten(st, count, i, j, blk);
    forall x | 0 <= x < size + |bytes| ensures ByteAt(st', i, x) == (Contents(st, i) + bytes)[x] {
      var l := x / BLOCK;
      BlockBelow(size, |bytes|, x);
      assert InFile(count[i], Data(l));
      assert BlockOf(st'.disk, st'.files[i], Data(l)) == BlockOf(st1.disk, st.files[i], Data(l)) == DataBlock(st, i, l);
      assert BlockAt(st'.disk, DataBlock(st, i, l)) == if l == j then blk else BlockAt(st.disk, DataBlock(st, i, l));
    }
  }

  lemma BlockBelow(size: nat, len: nat, x: nat)
    requires x < size + len && size % BLOCK + len <= BLOCK
    ensures x / BLOCK <= size / BLOCK
    ensures x / BLOCK == size / BLOCK ==> x % BLOCK - size % BLOCK == x - size
    ensures x >= size ==> x / BLOCK == size / BLOCK
    ensures x < size && x / BLOCK == size / BLOCK ==> x % BLOCK < size % BLOCK
  {
  }

  /** st' is st with bytes appended to file i, and nothing else of note. */
  ghost predicate AppendedTo(st: Store, st': Store, count: map<nat, nat>, i: nat, bytes: seq<Byte>) {
    && i in count && |st.disk| <= |st.used| && |st'.disk| <= |st'.used| && OthersKept(st, st', count, i)
    && i < |st.files| && i < |st'.files|
    && st'.files[i].size == st.files[i].size + |bytes|
    && StoreOk(st', count[i := Blocks(st'.files[i].size)]) && CountsOk(st', count[i := Blocks(st'.files[i].size)])
    && Contents(st', i) == Contents(st, i) + bytes
    && |FreeBlocks(st')| == |FreeBlocks(st)| - NewBlocks(st.files[i].size, |bytes|)
    && st'.free == st.free && st'.base == st.base
  }

  lemma ContentsKept(st: Store, st': Store, count: map<nat, nat>)
    requires StoreOk(st, count) && CountsOk(st, count) && Kept(st, st', count)
    ensures forall m :: m in count ==> Contents(st', m) == Contents(st, m)
  {
    forall m | m in count ensures Contents(st', m) == Contents(st, m) {
      KeptSame(st, st', count, m);
      SameContents(st, st', m);
    }
  }

  /** The buffer goes into the last block, which has room. */
  lemma FilledTo(st: Store, count: map<nat, nat>, i: nat, b: nat, bytes: seq<Byte>)
    requires StoreOk(st, count) && CountsOk(st, count) && i in count && bytes != []
    requires var size := st.files[i].size;
      count[i] == size / BLOCK + 1 && b == DataBlock(st, i, size / BLOCK) && |bytes| <= SpaceLeft(size)
      && size % BLOCK + SpaceLeft(size) == BLOCK
    ensures b < |st.disk| && AppendedTo(st, Appended(st, i, b, bytes), count, i, bytes)
  {
    hide StoreOk, NewBlocks, Contents;
    AppendedOk(st, count, i, b, bytes);
    var size, st' := st.files[i].size, Appended(st, i, b, bytes);
    NoNewBlock(size, |bytes|);
    assert count[i := Blocks(size + |bytes|)] == count;
    assert |st.disk| <= |st.used| by { StoreLengths(st, count); }
    assert FreeBlocks(st') == FreeBlocks(st);
    OthersAppended(st, st', count, i);
  }

  lemma StoreLengths(st: Store, count: map<nat, nat>)
    requires StoreOk(st, count)
    ensures st.base <= |st.disk| <= |st.used| <= WORD
    ensures forall m :: m in count ==> m < |st.files|
  {
  }

  lemma OthersAppended(st: Store, st': Store, count: map<nat, nat>, i: nat)
    requires CountsOk(st, count) && |st'.files| == |st.files|
    requires forall m :: m in count && m != i ==> st'.files[m] == st.files[m] && SameBlocks(st, st', m, count[m])
    ensures OthersKept(st, st', count, i)
  {
    forall m | m in count && m != i ensures Contents(st', m) == Contents(st, m) {
      SameContents(st, st', m);
    }
  }

  lemma FillingStep(st: Store, count: map<nat, nat>, i: nat, buf: seq<Byte>)
    requires i < |st.files| && CanAppend(st, count, i, buf, st.files[i].size, st.files[i].size % BLOCK) && buf != []
    requires !NeedsBlock(st.files[i].size, st.files[i].size)
    ensures var size := st.files[i].size;
      var taken := if |buf| <= SpaceLeft(size) then |buf| else SpaceLeft(size);
      var step := WriteStep(st, count, i, buf, size, size % BLOCK);
      0 < taken && step.Wrote? && step.taken == taken && AppendedTo(st, step.st, count, i, buf[..taken])
  {
    hide StoreOk, AppendedTo, Fill, Appended, NewBlocks;
    var size, space := st.files[i].size, SpaceLeft(st.files[i].size);
    StepBlocks(st, count, i, buf);
    var b := DataBlock(st, i, size / BLOCK);
    FillAppends(st, i, b, space, buf);
    FilledTo(st, count, i, b, buf[..if |buf| <= space then |buf| else space]);
  }

  /** The buffer goes into a block just added. */
  lemma GrownTo(st: Store, count: map<nat, nat>, i: nat, len: nat, bytes: seq<Byte>)
    requires StoreOk(st, count) && CountsOk(st, count) && i in count && 0 < |bytes| <= BLOCK && |bytes| <= len
    requires var size := st.files[i].size; size > 0 && size % BLOCK == 0 && size < MAX_SIZE
    requires |FreeBlocks(st)| >= NewBlocks(st.files[i].size, len)
    ensures var size, b := st.files[i].size, Taken(st);
      && b in FreeBlocks(st)
      && (EntryIndex(size) == 0 ==> Taken(WithTaken(st, b)) < |st.disk|)
      && (EntryIndex(size) > 0 ==> BlockOf(st.disk, st.files[i], Pointer(PointerIndex(size))) < |st.disk|)
      && var (st1, r) := AddBlock(WithTaken(st, b), i, b);
      && r == 0 && |st1.files| == |st.files| && |st1.disk| == |st.disk| && st1.files[i].size == size
      && AppendedTo(st, Appended(st1, i, b, bytes), count, i, bytes)
  {
    hide StoreOk, AddBlock, NewBlocks, Contents, ByteAt, BlockOf;
    var size := st.files[i].size;
    StoreLengths(st, count);
    BlockAdded(st, count, i, len);
    var b := Taken(st);
    var st1 := AddBlock(WithTaken(st, b), i, b).0;
    var count1 := count[i := count[i] + 1];
    OneNewBlock(size, |bytes|);
    AppendedOk(st1, count1, i, b, bytes);
    var st' := Appended(st1, i, b, bytes);
    assert count1 == count[i := Blocks(size + |bytes|)];
    assert FreeBlocks(st') == FreeBlocks(st1);
    assert CountsOk(st1, count[i := Blocks(size)]);
    OthersAppended(st1, st', count, i);
    StoreLengths(st', count1);
  }

  lemma GrowingStep(st: Store, count: map<nat, nat>, i: nat, buf: seq<Byte>)
    requires i < |st.files| && CanAppend(st, count, i, buf, st.files[i].size, st.files[i].size % BLOCK) && buf != []
    requires NeedsBlock(st.files[i].size, st.files[i].size) && st.free != 0
    ensures var size := st.files[i].size;
      var taken := if |buf| <= BLOCK then |buf| else BLOCK;
      var step := WriteStep(st, count, i, buf, size, size % BLOCK);
      step.Wrote? && step.taken == taken && AppendedTo(st, step.st, count, i, buf[..taken])
  {
    hide StoreOk, AppendedTo, Fill, Appended, AddBlock, NewBlocks, BlockOf, FirstClear;
    var size := st.files[i].size;
    var taken := if |buf| <= BLOCK then |buf| else BLOCK;
    StoreLengths(st, count);
    StepBlocks(st, count, i, buf);
    GrownTo(st, count, i, |buf|, buf[..taken]);
    var b := Taken(st);
    var st1 := AddBlock(WithTaken(st, b), i, b).0;
    FillAppends(st1, i, b, BLOCK, buf);
  }

  /** A block is taken and entered in the index of file i, whose contents stay. */
  lemma BlockAdded(st: Store, count: map<nat, nat>, i: nat, len: nat)
    requires StoreOk(st, count) && CountsOk(st, count) && i in count && len > 0
    requires var size := st.files[i].size; size > 0 && size % BLOCK == 0 && size < MAX_SIZE
    requires |FreeBlocks(st)| >= NewBlocks(st.files[i].size, len)
    ensures var size, b := st.files[i].size, Taken(st);
      && b in FreeBlocks(st)
      && (EntryIndex(size) == 0 ==> Taken(WithTaken(st, b)) < |st.disk|)
      && (EntryIndex(size) > 0 ==> BlockOf(st.disk, st.files[i], Pointer(PointerIndex(size))) < |st.disk|)
      && var (st1, r) := AddBlock(WithTaken(st, b), i, b);
      && r == 0 && count[i] == size / BLOCK && StoreOk(st1, count[i := count[i] + 1])
      && DataBlock(st1, i, count[i]) == b
      && |FreeBlocks(st1)| == |FreeBlocks(st)| - (if EntryIndex(size) == 0 then 2 else 1)
      && |st1.files| == |st.files| && |st1.disk| == |st.disk| && |st1.used| == |st.used| && st1.free == st.free
        && st1.base == st.base
      && (forall m :: m in count ==> st1.files[m].size == st.files[m].size && Contents(st1, m) == Contents(st, m))
  {
    hide AddBlock, FirstClear, BlockOf, Contents, StoreOk, NewBlocks;
    var size := st.files[i].size;
    StoreLengths(st, count);
    RoomForOne(st, size, len);
    OneNewBlock(size, 1);
    TakenIsFree(st);
    var b := Taken(st);
    var st0 := WithTaken(st, b);
    UnusedIsUnowned(st, count, b);
    TakenKept(st, count, b);
    KeptOwned(st, st0, count);
    if EntryIndex(size) == 0 {
      TakenIsFree(st0);
    }
    AddBlockOk(st0, count, i, b);
    var st1 := AddBlock(st0, i, b).0;
    assert FreeBlocks(st) == FreeBlocks(st0) + {b};
    if EntryIndex(size) == 0 {
      assert FreeBlocks(st0) == FreeBlocks(st1) + {Taken(st0)};
    }
    ContentsKept(st, st0, count);
    assert CountsOk(st0, count);
    ContentsKept(st0, st1, count);
  }

  lemma NextAppend(st: Store, st': Store, count: map<nat, nat>, i: nat, buf: seq<Byte>, taken: nat)
    requires i < |st.files| && CanAppend(st, count, i, buf, st.files[i].size, st.files[i].size % BLOCK)
    requires taken <= |buf| && AppendedTo(st, st', count, i, buf[..taken])
    requires taken == |buf| || (st.files[i].size + taken) % BLOCK == 0
    ensures var size := st.files[i].size + taken;
      CanAppend(st', count[i := Blocks(size)], i, buf[taken..], size, 0)
  {
    hide StoreOk, OthersKept;
    MoreBlocks(st.files[i].size, taken, |buf|);
  }

  /** What a turn of the loop does: it appends the first taken bytes of the buffer to file i, leaves the
      other files alone and takes exactly the blocks the growth needs. It fails only when
      bitmap_free_blocks is 0 and a block is needed, before changing anything. */
  lemma StepOk(st: Store, count: map<nat, nat>, i: nat, buf: seq<Byte>)
    requires i < |st.files| && CanAppend(st, count, i, buf, st.files[i].size, st.files[i].size % BLOCK) && buf != []
    ensures var size := st.files[i].size;
      var step := WriteStep(st, count, i, buf, size, size % BLOCK);
      if NeedsBlock(size, size) && st.free == 0 then step == Failed(st, -1)
      else
        && step.Wrote? && 0 < step.taken <= |buf|
        && (!NeedsBlock(size, size) ==> step.taken == if |buf| <= SpaceLeft(size) then |buf| else SpaceLeft(size))
        && AppendedTo(st, step.st, count, i, buf[..step.taken])
        && CanAppend(step.st, count[i := Blocks(size + step.taken)], i, buf[step.taken..], size + step.taken, 0)
  {
    hide WriteStep, AppendedTo, CanAppend, SpaceLeft;
    var size := st.files[i].size;
    SpaceAligns(size);
    if NeedsBlock(size, size) && st.free == 0 {
      FailingStep(st, count, i, buf);
    } else {
      if NeedsBlock(size, size) {
        GrowingStep(st, count, i, buf);
      } else {
        FillingStep(st, count, i, buf);
      }
      var step := WriteStep(st, count, i, buf, size, size % BLOCK);
      NextAppend(st, step.st, count, i, buf, step.taken);
    }
  }

  lemma SpaceAligns(size: nat)
    ensures (size + SpaceLeft(size)) % BLOCK == 0 && (NeedsBlock(size, size) ==> size % BLOCK == 0)
  {
  }

  lemma FailingStep(st: Store, count: map<nat, nat>, i: nat, buf: seq<Byte>)
    requires i < |st.files| && CanAppend(st, count, i, buf, st.files[i].size, st.files[i].size % BLOCK) && buf != []
    requires NeedsBlock(st.files[i].size, st.files[i].size) && st.free == 0
    ensures WriteStep(st, count, i, buf, st.files[i].size, st.files[i].size % BLOCK) == Failed(st, -1)
  {
    hide StoreOk, AddBlock, Fill;
  }

  // ---- the whole write ----

  /** The loop of o_write, with its result: 0 when all of buf was written, else the error code. */
  function WriteLoop(st: Store, ghost count: map<nat, nat>, i: nat, buf: seq<Byte>, off: nat, at: nat): (Store, int)
    requires CanAppend(st, count, i, buf, off, at)
    decreases |buf|
  {
    if buf == [] then (st, 0)
    else
      hide WriteStep, StoreOk, NewBlocks, SpaceLeft, CountsOk;
      StoreLengths(st, count);
      StepOk(st, count, i, buf);
      var step := WriteStep(st, count, i, buf, off, at);
      if step.Failed? then (step.st, step.code)
      else
        WriteLoop(step.st, count[i := Blocks(off + step.taken)], i, buf[step.taken..], off + step.taken, 0)
  }

  /** The loop of o_write goes on from the state a turn leaves, or ends with its error. */
  lemma TurnOk(st: Store, count: map<nat, nat>, i: nat, buf: seq<Byte>, off: nat, at: nat)
    requires CanAppend(st, count, i, buf, off, at) && buf != []
    ensures var step := WriteStep(st, count, i, buf, off, at);
      if step.Failed? then step.code != 0 && WriteLoop(st, count, i, buf, off, at) == (step.st, step.code)
      else
        && 0 < step.taken <= |buf| && i < |step.st.files|
        && CanAppend(step.st, count[i := Blocks(off + step.taken)], i, buf[step.taken..], off + step.taken, 0)
        && WriteLoop(st, count, i, buf, off, at)
             == WriteLoop(step.st, count[i := Blocks(off + step.taken)], i, buf[step.taken..], off + step.taken, 0)
  {
    hide WriteStep, StoreOk, NewBlocks, SpaceLeft, CountsOk;
    StoreLengths(st, count);
    StepOk(st, count, i, buf);
  }

  lemma NothingAppended(st: Store, count: map<nat, nat>, i: nat)
    requires StoreOk(st, count) && CountsOk(st, count) && i in count
    ensures AppendedTo(st, st, count, i, [])
  {
    assert count[i := Blocks(st.files[i].size)] == count;
    NoNewBlock(st.files[i].size, 0);
  }

  lemma AppendedTwice(st: Store, st1: Store, st2: Store, count: map<nat, nat>, i: nat, a: seq<Byte>, b: seq<Byte>)
    requires AppendedTo(st, st1, count, i, a)
    requires AppendedTo(st1, st2, count[i := Blocks(st1.files[i].size)], i, b)
    ensures AppendedTo(st, st2, count, i, a + b)
  {
    hide StoreOk, Contents, NewBlocks;
    var size := st.files[i].size;
    MoreBlocks(size, |a|, |a| + |b|);
    assert count[i := Blocks(size + |a|)][i := Blocks(size + |a| + |b|)] == count[i := Blocks(size + |a| + |b|)];
    assert Contents(st, i) + a + b == Contents(st, i) + (a + b);
  }

  /** How much of buf is written: all, unless bitmap_free_blocks is 0 and the last block is too small. */
  function Written(st: Store, i: nat, buf: seq<Byte>): (n: nat)
    requires i < |st.files|
    ensures n <= |buf|
  {
    if st.free == 0 && |buf| > SpaceLeft(st.files[i].size) then SpaceLeft(st.files[i].size) else |buf|
  }

  /** Append refinement: a write at the end of a file, of any length when the end is block-aligned and
      shorter than a block otherwise, makes the file's bytes the old ones followed by the buffer. No
      other file changes, and exactly the blocks needed are taken. Only when bitmap_free_blocks is 0 and
      a block is needed does it fail, having appended what fits the last block. */
  lemma {:induction false} WriteAppends(st: Store, count: map<nat, nat>, i: nat, buf: seq<Byte>, off: nat, at: nat)
    requires CanAppend(st, count, i, buf, off, at)
    ensures var (st', r) := WriteLoop(st, count, i, buf, off, at);
      && r == (if Written(st, i, buf) == |buf| then 0 else -1)
      && AppendedTo(st, st', count, i, buf[..Written(st, i, buf)])
    decreases |buf|
  {
    hide WriteStep, StoreOk, NewBlocks, SpaceLeft, AppendedTo, CountsOk;
    if buf == [] {
      NothingAppended(st, count, i);
    } else {
      StoreLengths(st, count);
      StepOk(st, count, i, buf);
      SpaceAligns(off);
      var step := WriteStep(st, count, i, buf, off, at);
      if step.Failed? {
        NothingAppended(st, count, i);
      } else {
        var rest := buf[step.taken..];
        SizeAfter(st, step.st, count, i, buf[..step.taken]);
        WriteAppends(step.st, count[i := Blocks(off + step.taken)], i, rest, off + step.taken, 0);
        SpaceAligns(off + step.taken);
        WrittenSplits(st, step.st, i, buf, step.taken);
        var n := Written(step.st, i, rest);
        AppendedTwice(st, step.st, WriteLoop(st, count, i, buf, off, at).0, count, i, buf[..step.taken], rest[..n]);
        assert buf[..step.taken] + rest[..n] == buf[..step.taken + n];
      }
    }
  }

  lemma SizeAfter(st: Store, st': Store, count: map<nat, nat>, i: nat, bytes: seq<Byte>)
    requires AppendedTo(st, st', count, i, bytes)
    ensures i < |st'.files| && st'.files[i].size == st.files[i].size + |bytes| && st'.free == st.free
  {
  }

  lemma WrittenSplits(st: Store, st': Store, i: nat, buf: seq<Byte>, taken: nat)
    requires i < |st.files| && i < |st'.files| && 0 < taken <= |buf| && st'.free == st.free
    requires st'.files[i].size == st.files[i].size + taken
    requires !NeedsBlock(st.files[i].size, st.files[i].size) ==>
      taken == if |buf| <= SpaceLeft(st.files[i].size) then |buf| else SpaceLeft(st.files[i].size)
    requires NeedsBlock(st.files[i].size, st.files[i].size) ==> st.free != 0
    ensures Written(st, i, buf) == taken + Written(st', i, buf[taken..])
  {
  }

  // ---- long writes from inside a block ----

  /** The slot that one more block of a file of n blocks would need first. */
  function NextSlot(n: nat): Slot {
    if n % PTRS == 0 then Pointer(n / PTRS) else Data(n)
  }

  /** The index of file i holds nothing behind its last block (agregarBloqueLibre leaves zeros there). */
  ghost predicate NoSpare(st: Store, i: nat)
    requires i < |st.files|
  {
    !InUse(st, BlockOf(st.disk, st.files[i], NextSlot(Blocks(st.files[i].size))))
  }

  /** At the end of a file whose last block has room, a turn of o_write appends exactly when the file
      ends at a block boundary or less than a block is written. Otherwise it copies a whole block over
      the start of the last one and claims a size the index has no block for. */
  lemma TurnAppendsExactly(st: Store, count: map<nat, nat>, i: nat, buf: seq<Byte>)
    requires StoreOk(st, count) && CountsOk(st, count) && i in count && buf != []
    requires st.files[i].size + |buf| < MAX_SIZE && !NeedsBlock(st.files[i].size, st.files[i].size) && NoSpare(st, i)
    ensures var size := st.files[i].size;
      && DataBlock(st, i, size / BLOCK) < |st.disk|
      && (|buf| < BLOCK ==> size % BLOCK + SpaceLeft(size) <= BLOCK)
      && var step := Fill(st, i, DataBlock(st, i, size / BLOCK), SpaceLeft(size), buf, size, size % BLOCK);
      step.taken <= |buf| &&
      (AppendedTo(st, step.st, count, i, buf[..step.taken]) <==> size % BLOCK == 0 || |buf| < BLOCK)
  {
    var size := st.files[i].size;
    NoNewBlock(size, 0);
    assert InFile(count[i], Data(size / BLOCK));
    var b := DataBlock(st, i, size / BLOCK);
    if size % BLOCK == 0 || |buf| < BLOCK {
      FillAppends(st, i, b, SpaceLeft(size), buf);
      FilledTo(st, count, i, b, buf[..if |buf| <= SpaceLeft(size) then |buf| else SpaceLeft(size)]);
    } else {
      LongWriteBreaks(st, count, i, buf);
    }
  }

  lemma LongWriteBreaks(st: Store, count: map<nat, nat>, i: nat, buf: seq<Byte>)
    requires StoreOk(st, count) && CountsOk(st, count) && i in count && |buf| >= BLOCK && NoSpare(st, i)
    requires var size := st.files[i].size;
      size % BLOCK != 0 && size < MAX_SIZE && DataBlock(st, i, size / BLOCK) < |st.disk|
    ensures var size := st.files[i].size;
      !AppendedTo(st, Fill(st, i, DataBlock(st, i, size / BLOCK), SpaceLeft(size), buf, size, size % BLOCK).st, count,
        i, buf[..BLOCK])
  {
    var size, n := st.files[i].size, count[i];
    var b := DataBlock(st, i, size / BLOCK);
    var st1 := WithBlock(st, b, buf[..BLOCK]);
    var st' := Sized(st1, i, size + BLOCK);
    assert Fill(st, i, b, SpaceLeft(size), buf, size, size % BLOCK).st == st';
    NoNewBlock(size, 0);
    assert Blocks(size + BLOCK) == n + 1;
    var q := NextSlot(n);
    assert InFile(n + 1, q);
    SizedOk(st, count, i, size);
    assert BlockOf(st'.disk, st'.files[i], q) == BlockOf(st.disk, st.files[i], q) by {
      if q.Data? {
        assert n / PTRS == (n - 1) / PTRS;
        assert InFile(n, Pointer(n / PTRS)) && InFile(n, Data(n - 1));
        assert BlockOf(st.disk, st.files[i], Pointer(n / PTRS)) != BlockOf(st.disk, st.files[i], Data(n - 1));
      }
    }
    assert !InUse(st', BlockOf(st'.disk, st'.files[i], q));
    var count' := count[i := n + 1];
    assert i in count' && InFile(count'[i], q);
    if StoreOk(st', count') {
      assert false;
    }
  }
}
