/** The disk of the SAC file server: blocks of bytes, some of them read as arrays of block numbers, the
    used bitmap, and the block index of each file (Sac-Server/estructuras.h). */
module SacDisk {

  type Byte = x: int | 0 <= x < 256

  /** TAMANIO_BLOQUE, PTRGBLOQUE_SIZE, BLOQUESINDIRECTOS */
  const BLOCK: nat := 4096
  const PTRS: nat := 1024
  const INDIRECT: nat := 1000

  /** ptrGBloque is a uint32_t. */
  const WORD: nat := 0x1_0000_0000

  /** File sizes fit an int, so that div does not overflow. */
  const MAX_SIZE: nat := 0x8000_0000

  type Block = b: seq<Byte> | |b| == BLOCK ghost witness seq(BLOCK, i => 0)
  type Index = s: seq<nat> | |s| == INDIRECT ghost witness seq(INDIRECT, i => 0)

  function Zeros(): Block {
    seq(BLOCK, i => 0)
  }

  // ---- a block read as 1024 little-endian words ----

  function GetWord(b: Block, i: nat): nat
    requires i < PTRS
  {
    (b[4 * i] as int) + 0x100 * (b[4 * i + 1] as int)
      + 0x1_0000 * (b[4 * i + 2] as int) + 0x100_0000 * (b[4 * i + 3] as int)
  }

  function PutWord(b: Block, i: nat, w: nat): Block
    requires i < PTRS && w < WORD
  {
    b[4 * i := w % 0x100][4 * i + 1 := w / 0x100 % 0x100]
     [4 * i + 2 := w / 0x1_0000 % 0x100][4 * i + 3 := w / 0x100_0000]
  }

  /** Writing a word changes that word and no other. */
  lemma PutGet(b: Block, i: nat, w: nat, j: nat)
    requires i < PTRS && j < PTRS && w < WORD
    ensures GetWord(PutWord(b, i, w), j) == if j == i then w else GetWord(b, j)
  {
    if j == i {
      Digits(w);
    }
  }

  lemma Digits(w: nat)
    requires w < WORD
    ensures w / 0x100_0000 < 0x100
    ensures w % 0x100 + 0x100 * (w / 0x100 % 0x100)
      + 0x1_0000 * (w / 0x1_0000 % 0x100) + 0x100_0000 * (w / 0x100_0000) == w
  {
    var a := w / 0x100;
    var b := a / 0x100;
    assert w == 0x100 * a + w % 0x100;
    assert a == 0x100 * b + a % 0x100;
    assert b == w / 0x1_0000;
    assert b / 0x100 == w / 0x100_0000;
    assert b == 0x100 * (b / 0x100) + b % 0x100;
  }

  // ---- the store ----

  /** The storage half of struct sac_file_t */
  datatype Inode = Inode(size: nat, index: Index)

  /** The storage half of the node table, the blocks, the bitmap, bitmap_free_blocks, and the number of
      the first data block, HEADER + TAMANIO_BITMAP + TAMANIO_TABLA_DE_NODOS. */
  datatype Store = Store(files: seq<Inode>, disk: seq<Block>, used: seq<bool>, free: int, base: nat)

  function BlockAt(disk: seq<Block>, b: nat): Block {
    if b < |disk| then disk[b] else Zeros()
  }

  /** What a file owns a block for: its k-th pointer block, or its j-th data block. */
  datatype Slot = Pointer(k: nat) | Data(j: nat)

  /** The block in a slot, found through the two-level index. */
  function BlockOf(disk: seq<Block>, f: Inode, q: Slot): nat {
    match q
    case Pointer(k) => if k < INDIRECT then f.index[k] else 0
    case Data(j) => if j / PTRS < INDIRECT then GetWord(BlockAt(disk, f.index[j / PTRS]), j % PTRS) else 0
  }

  /** How many pointer blocks n data blocks need. */
  function Pointers(n: nat): nat {
    (n + PTRS - 1) / PTRS
  }

  predicate InFile(n: nat, q: Slot) {
    match q
    case Pointer(k) => k < Pointers(n)
    case Data(j) => j < n
  }

  /** How many data blocks a file of this size has; a new file already has one. */
  function Blocks(size: nat): nat {
    if size == 0 then 1 else (size + BLOCK - 1) / BLOCK
  }

  ghost predicate ShapeOk(st: Store, count: map<nat, nat>) {
    && st.base <= |st.disk| <= |st.used| <= WORD
    && (forall i :: i in count ==> i < |st.files| && count[i] <= MAX_SIZE / BLOCK)
  }

  /** Every block a file owns is past header, bitmap and node table, and marked used. count gives the
      number of data blocks of each live file. */
  ghost predicate OwnedUsed(st: Store, count: map<nat, nat>)
    requires ShapeOk(st, count)
  {
    forall i, q :: i in count && InFile(count[i], q) ==> InUse(st, BlockOf(st.disk, st.files[i], q))
  }

  predicate InUse(st: Store, b: nat) {
    st.base <= b < |st.disk| && b < |st.used| && st.used[b]
  }

  /** No block is owned twice, by two files or by one file for two purposes. */
  ghost predicate OwnedOnce(st: Store, count: map<nat, nat>)
    requires ShapeOk(st, count)
  {
    forall i, q, j, p :: i in count && j in count && InFile(count[i], q) && InFile(count[j], p) && (i, q) != (j, p) ==>
      BlockOf(st.disk, st.files[i], q) != BlockOf(st.disk, st.files[j], p)
  }

  ghost predicate StoreOk(st: Store, count: map<nat, nat>) {
    ShapeOk(st, count) && OwnedUsed(st, count) && OwnedOnce(st, count)
  }

  /** No file owns block b. */
  ghost predicate Unowned(st: Store, count: map<nat, nat>, b: nat)
    requires ShapeOk(st, count)
  {
    forall i, q :: i in count && InFile(count[i], q) ==> BlockOf(st.disk, st.files[i], q) != b
  }

  lemma UnusedIsUnowned(st: Store, count: map<nat, nat>, b: nat)
    requires StoreOk(st, count) && !InUse(st, b)
    ensures Unowned(st, count, b)
  {
  }

  lemma PointerOfData(n: nat, j: nat)
    requires j < n
    ensures InFile(n, Pointer(j / PTRS))
    ensures n <= MAX_SIZE / BLOCK ==> j / PTRS < INDIRECT - 1
  {
  }

  // ---- contents ----

  /** The bytes of a file, read through its index. */
  ghost function Contents(st: Store, i: nat): (s: seq<Byte>)
    requires i < |st.files|
    ensures |s| == st.files[i].size
  {
    seq(st.files[i].size, x requires 0 <= x => ByteAt(st, i, x))
  }

  ghost function ByteAt(st: Store, i: nat, x: nat): Byte
    requires i < |st.files|
  {
    BlockAt(st.disk, BlockOf(st.disk, st.files[i], Data(x / BLOCK)))[x % BLOCK]
  }

  lemma ByteInBlocks(size: nat, x: nat)
    requires x < size
    ensures x / BLOCK < Blocks(size)
  {
  }

  /** The first n data blocks of file i are where and what they were. */
  ghost predicate SameBlocks(st: Store, st': Store, i: nat, n: nat) {
    && i < |st.files| && i < |st'.files|
    && forall j :: 0 <= j < n ==>
      && BlockOf(st'.disk, st'.files[i], Data(j)) == BlockOf(st.disk, st.files[i], Data(j))
      && BlockAt(st'.disk, BlockOf(st.disk, st.files[i], Data(j)))
        == BlockAt(st.disk, BlockOf(st.disk, st.files[i], Data(j)))
  }

  lemma SameContents(st: Store, st': Store, i: nat)
    requires i < |st.files| && i < |st'.files| && st'.files[i].size == st.files[i].size
    requires SameBlocks(st, st', i, Blocks(st.files[i].size))
    ensures Contents(st', i) == Contents(st, i)
  {
    forall x | 0 <= x < st.files[i].size ensures ByteAt(st', i, x) == ByteAt(st, i, x) {
      ByteInBlocks(st.files[i].size, x);
    }
  }

  // ================= writing a data block =================

  function WithBlock(st: Store, b: nat, blk: Block): Store
    requires b < |st.disk|
  {
    st.(disk := st.disk[b := blk])
  }

  /** Writing a block that is no pointer block leaves every index as it was. */
  lemma IndexStays(st: Store, count: map<nat, nat>, b: nat, blk: Block, i: nat, q: Slot)
    requires StoreOk(st, count) && b < |st.disk| && i in count && InFile(count[i], q)
    requires forall k: nat :: k < Pointers(count[i]) ==> BlockOf(st.disk, st.files[i], Pointer(k)) != b
    ensures BlockOf(WithBlock(st, b, blk).disk, st.files[i], q) == BlockOf(st.disk, st.files[i], q)
  {
    if q.Data? {
      PointerOfData(count[i], q.j);
      assert BlockOf(st.disk, st.files[i], Pointer(q.j / PTRS)) != b;
    }
  }

  ghost function DataBlock(st: Store, i: nat, j: nat): nat
    requires i < |st.files|
  {
    BlockOf(st.disk, st.files[i], Data(j))
  }

  lemma DataWritten(st: Store, count: map<nat, nat>, i: nat, j: nat, blk: Block)
    requires StoreOk(st, count) && i in count && j < count[i]
    ensures DataBlock(st, i, j) < |st.disk|
    ensures var st' := WithBlock(st, DataBlock(st, i, j), blk);
      && StoreOk(st', count)
      && (forall m, q :: m in count && InFile(count[m], q) ==>
        BlockOf(st'.disk, st'.files[m], q) == BlockOf(st.disk, st.files[m], q))
      && (forall m :: m in count && m != i ==> SameBlocks(st, st', m, count[m]))
      && (forall l :: 0 <= l < count[i] ==>
            BlockAt(st'.disk, DataBlock(st, i, l)) == if l == j then blk else BlockAt(st.disk, DataBlock(st, i, l)))
  {
    var b := DataBlock(st, i, j);
    assert InFile(count[i], Data(j));
    var st' := WithBlock(st, b, blk);
    forall m, q | m in count && InFile(count[m], q)
      ensures BlockOf(st'.disk, st'.files[m], q) == BlockOf(st.disk, st.files[m], q)
    {
      forall k: nat | k < Pointers(count[m]) ensures BlockOf(st.disk, st.files[m], Pointer(k)) != b {
        assert InFile(count[m], Pointer(k));
      }
      IndexStays(st, count, b, blk, m, q);
    }
    forall m, l | m in count && 0 <= l < count[m] && (m, l) != (i, j)
      ensures BlockOf(st.disk, st.files[m], Data(l)) != b
    {
      assert InFile(count[m], Data(l));
    }
  }
}
