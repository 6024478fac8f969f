/** Reading a range of a file block by block (o_read, Sac-Server/operaciones.c). */
module SacRead {
  import opened SacDisk
  import opened SacWrite

  /** A copy from inside one block is a slice of the file. */
  lemma ChunkIsSlice(st: Store, i: nat, pos: nat, m: nat)
    requires i < |st.files| && pos + m <= st.files[i].size && pos % BLOCK + m <= BLOCK
    ensures BlockAt(st.disk, DataBlock(st, i, pos / BLOCK))[pos % BLOCK..pos % BLOCK + m]
      == Contents(st, i)[pos..pos + m]
  {
    var chunk := BlockAt(st.disk, DataBlock(st, i, pos / BLOCK))[pos % BLOCK..pos % BLOCK + m];
    forall x | 0 <= x < m ensures chunk[x] == Contents(st, i)[pos + x] {
      SameBlockNext(pos, x);
    }
  }

  lemma SameBlockNext(pos: nat, x: nat)
    requires pos % BLOCK + x < BLOCK
    ensures (pos + x) / BLOCK == pos / BLOCK && (pos + x) % BLOCK == pos % BLOCK + x
  {
  }

  /** Where o_read is: position `block` of the index, skip bytes to leave out, rest bytes to come. */
  ghost predicate Reading(st: Store, i: nat, size: nat, offset: nat, block: nat, skip: nat, rest: nat, out: seq<Byte>,
      done: bool)
  {
    && i < |st.files| && offset < st.files[i].size && offset + size <= st.files[i].size
    && |out| + rest == size && out == Contents(st, i)[offset..offset + |out|]
    && (out != [] ==> skip == 0 && (done || offset % BLOCK == 0))
    && (if done then rest == 0 else offset + |out| == block * BLOCK + skip && (rest > 0 || out == []))
  }

  lemma SizeBound(st: Store, count: map<nat, nat>, i: nat)
    requires StoreOk(st, count) && CountsOk(st, count) && i in count
    ensures st.files[i].size <= MAX_SIZE
  {
  }

  /** The next block to read is a data block of the file, and the copy stays inside it. */
  lemma AtBlock(st: Store, count: map<nat, nat>, i: nat, size: nat, offset: nat, k: nat, j: nat, skip: nat, rest: nat,
      out: seq<Byte>)
    requires StoreOk(st, count) && CountsOk(st, count) && i in count && j < PTRS && skip < BLOCK
    requires Reading(st, i, size, offset, k * PTRS + j, skip, rest, out, false)
    requires offset % BLOCK == 0 || offset % BLOCK + size <= BLOCK
    ensures var pos := offset + |out|;
      && k < INDIRECT && st.files[i].index[k] < |st.disk|
      && pos / BLOCK == k * PTRS + j && pos % BLOCK == skip
      && GetWord(BlockAt(st.disk, st.files[i].index[k]), j) == DataBlock(st, i, pos / BLOCK) < |st.disk|
      && skip + (if rest < BLOCK then rest else BLOCK) <= BLOCK
      && pos + (if rest < BLOCK then rest else BLOCK) <= st.files[i].size
  {
    var pos, n := offset + |out|, k * PTRS + j;
    assert pos < st.files[i].size;
    ByteInBlocks(st.files[i].size, pos);
    assert pos / BLOCK == n && pos % BLOCK == skip;
    PointerOfData(count[i], n);
    assert n / PTRS == k && n % PTRS == j;
    assert InFile(count[i], Data(n)) && InFile(count[i], Pointer(k));
    assert BlockOf(st.disk, st.files[i], Pointer(k)) == st.files[i].index[k];
  }

  lemma StartReading(st: Store, i: nat, size: nat, offset: nat)
    requires i < |st.files| && offset < st.files[i].size && offset + size <= st.files[i].size
    ensures Reading(st, i, size, offset, 0, offset, size, [], false)
  {
  }

  /** n blocks are left out. */
  lemma SkipBlocks(st: Store, i: nat, size: nat, offset: nat, block: nat, skip: nat, rest: nat, out: seq<Byte>, n: nat)
    requires Reading(st, i, size, offset, block, skip, rest, out, false) && n > 0 && skip >= n * BLOCK
    ensures Reading(st, i, size, offset, block + n, skip - n * BLOCK, rest, out, false)
  {
  }

  /** A copy of m bytes of the block at hand. */
  lemma CopyChunk(st: Store, count: map<nat, nat>, i: nat, size: nat, offset: nat, k: nat, j: nat, skip: nat,
      rest: nat, out: seq<Byte>)
    requires StoreOk(st, count) && CountsOk(st, count) && i in count && j < PTRS && skip < BLOCK
    requires Reading(st, i, size, offset, k * PTRS + j, skip, rest, out, false)
    requires offset % BLOCK == 0 || offset % BLOCK + size <= BLOCK
    ensures k < INDIRECT && st.files[i].index[k] < |st.disk|
    ensures var b, m := GetWord(BlockAt(st.disk, st.files[i].index[k]), j), if rest < BLOCK then rest else BLOCK;
      && b < |st.disk| && skip + m <= BLOCK && m <= rest
      && Reading(st, i, size, offset, k * PTRS + j + 1, 0, rest - m, out + st.disk[b][skip..skip + m], rest == m)
  {
    hide Contents, BlockOf, DataBlock, GetWord, ByteAt, StoreOk, CountsOk;
    AtBlock(st, count, i, size, offset, k, j, skip, rest, out);
    var m := if rest < BLOCK then rest else BLOCK;
    ChunkIsSlice(st, i, offset + |out|, m);
    SliceJoin(Contents(st, i), offset, offset + |out|, offset + |out| + m);
  }

  lemma SliceJoin(c: seq<Byte>, a: nat, b: nat, d: nat)
    requires a <= b <= d <= |c|
    ensures c[a..b] + c[b..d] == c[a..d]
  {
  }

  /** The index does not end before the range does. */
  lemma EndReading(st: Store, i: nat, size: nat, offset: nat, block: nat, skip: nat, rest: nat, out: seq<Byte>,
      done: bool)
    requires Reading(st, i, size, offset, block, skip, rest, out, done) && st.files[i].size <= MAX_SIZE
    requires done || block >= INDIRECT * PTRS
    ensures out == Contents(st, i)[offset..offset + size]
  {
  }

  lemma ReadingDone(st: Store, i: nat, size: nat, offset: nat, block: nat, next: nat, skip: nat, rest: nat,
      out: seq<Byte>, done: bool)
    requires Reading(st, i, size, offset, block, skip, rest, out, done) && (done || next == block)
    ensures Reading(st, i, size, offset, next, skip, rest, out, done)
  {
  }
}
