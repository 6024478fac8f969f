/** Taking free blocks and adding them to a file (obtenerBloqueLibre and agregarBloqueLibre,
    Sac-Server/estructuras.c). */
module SacGrowth {
  import opened SacDisk

  const ENOSPC: int := 28

  /** The first clear bit from i on; the number of bits when there is none. */
  function FirstClear(used: seq<bool>, i: nat): (k: nat)
    requires i <= |used|
    ensures i <= k <= |used| && (k < |used| ==> !used[k])
    ensures forall j :: i <= j < k ==> used[j]
    decreases |used| - i
  {
    if i == |used| || !used[i] then i else FirstClear(used, i + 1)
  }

  ghost function FreeBlocks(st: Store): set<nat>
    requires |st.disk| <= |st.used|
  {
    set b: nat | st.base <= b < |st.disk| && !st.used[b]
  }

  /** When bitmap_free_blocks is 0 no block is free. */
  ghost predicate FreeCounted(st: Store)
    requires |st.disk| <= |st.used|
  {
    st.free >= 0 && (st.free == 0 ==> FreeBlocks(st) == {})
  }

  /** obtenerBloquesLibres: the clear bits from i on. */
  function ClearBits(used: seq<bool>, i: nat): (n: nat)
    requires i <= |used|
    decreases |used| - i
  {
    if i == |used| then 0 else (if used[i] then 0 else 1) + ClearBits(used, i + 1)
  }

  lemma {:induction false} ClearBitsIsCount(used: seq<bool>, i: nat)
    requires i <= |used|
    ensures ClearBits(used, i) == |set b | i <= b < |used| && !used[b]|
    decreases |used| - i
  {
    var clear := set b | i <= b < |used| && !used[b];
    if i == |used| {
      assert clear == {};
    } else {
      ClearBitsIsCount(used, i + 1);
      assert clear == (set b | i + 1 <= b < |used| && !used[b]) + if used[i] then {} else {i};
    }
  }

  lemma {:induction false} ClearBitIsCounted(used: seq<bool>, i: nat, b: nat)
    requires i <= b < |used| && !used[b]
    ensures ClearBits(used, i) > 0
    decreases |used| - i
  {
    if used[i] {
      ClearBitIsCounted(used, i + 1, b);
    }
  }

  /** The count the server starts with. */
  lemma StartIsCounted(st: Store)
    requires |st.disk| <= |st.used| && st.free == ClearBits(st.used, 0)
    ensures FreeCounted(st)
  {
    forall b: nat | st.base <= b < |st.disk| && !st.used[b] ensures st.free > 0 {
      ClearBitIsCounted(st.used, 0, b);
    }
  }

  /** obtenerBloqueLibre, when a block is free: the first one, marked used. */
  function Taken(st: Store): nat
    requires st.base <= |st.used|
  {
    FirstClear(st.used, st.base)
  }

  function WithTaken(st: Store, b: nat): Store
    requires b < |st.used|
  {
    st.(used := st.used[b := true])
  }

  lemma TakenIsFree(st: Store)
    requires st.base <= |st.disk| <= |st.used| && FreeBlocks(st) != {}
    ensures Taken(st) in FreeBlocks(st)
    ensures FreeBlocks(WithTaken(st, Taken(st))) == FreeBlocks(st) - {Taken(st)}
  {
    var b :| b in FreeBlocks(st);
    assert Taken(st) <= b;
  }

  // ---- the position of a new block in the index ----

  /** settearPosicion: pointer block and entry of an offset. */
  function PointerIndex(offset: nat): nat {
    offset / (BLOCK * PTRS)
  }

  function EntryIndex(offset: nat): (e: nat)
    ensures e < PTRS
  {
    offset % (BLOCK * PTRS) / BLOCK
  }

  lemma PositionOfBlock(offset: nat)
    ensures PointerIndex(offset) == offset / BLOCK / PTRS && EntryIndex(offset) == offset / BLOCK % PTRS
    ensures offset < MAX_SIZE ==> PointerIndex(offset) < INDIRECT - 2
  {
    var m, j := offset / BLOCK, offset / (BLOCK * PTRS);
    var e := offset % (BLOCK * PTRS) / BLOCK;
    assert offset == BLOCK * PTRS * j + offset % (BLOCK * PTRS);
    assert offset % (BLOCK * PTRS) == BLOCK * e + offset % (BLOCK * PTRS) % BLOCK;
    assert offset == BLOCK * (PTRS * j + e) + offset % (BLOCK * PTRS) % BLOCK;
    assert m == PTRS * j + e;
  }

  function WithIndex(st: Store, i: nat, index: Index): Store
    requires i < |st.files|
  {
    st.(files := st.files[i := st.files[i].(index := index)])
  }

  /** The new pointer block of agregarBloqueLibre: cleared, entered in the index, the next entry zero. */
  function WithPointer(st: Store, i: nat, k: nat, b: nat): Store
    requires i < |st.files| && k < INDIRECT - 1 && b < |st.disk| && b < |st.used|
  {
    WithIndex(WithBlock(WithTaken(st, b), b, Zeros()), i, st.files[i].index[k := b][k + 1 := 0])
  }

  /** agregarBloqueLibre: enters block number node behind the blocks the file's size accounts for.
      (The test for position 1024 in the source never holds.) */
  function AddBlock(st: Store, i: nat, node: nat): (Store, int)
    requires i < |st.files| && st.files[i].size < MAX_SIZE && node < WORD
    requires st.base <= |st.disk| <= |st.used| <= WORD
    requires EntryIndex(st.files[i].size) == 0 ==> Taken(st) < |st.disk|
    requires EntryIndex(st.files[i].size) > 0 ==>
      BlockOf(st.disk, st.files[i], Pointer(PointerIndex(st.files[i].size))) < |st.disk|
  {
    var k, e := PointerIndex(st.files[i].size), EntryIndex(st.files[i].size);
    PositionOfBlock(st.files[i].size);
    if k == INDIRECT - 1 && e == PTRS - 1 then (st, -ENOSPC)
    else
      var st1 := if e == 0 then WithPointer(st, i, k, Taken(st)) else st;
      var b := st1.files[i].index[k];
      (WithBlock(st1, b, PutWord(st1.disk[b], e, node)), 0)
  }

  // ---- ownership when a file grows ----

  /** Every slot of every file holds the block it held, and every data block its bytes. */
  ghost predicate Kept(st: Store, st': Store, count: map<nat, nat>)
    requires ShapeOk(st, count)
  {
    && |st'.files| == |st.files| && |st'.disk| == |st.disk| && |st'.used| == |st.used| && st'.base == st.base
      && st'.free == st.free
    && (forall m :: m in count ==> st'.files[m].size == st.files[m].size)
    && (forall m, q :: m in count && InFile(count[m], q) ==>
      BlockOf(st'.disk, st'.files[m], q) == BlockOf(st.disk, st.files[m], q))
    && (forall m, j :: m in count && 0 <= j < count[m] ==>
          BlockAt(st'.disk, BlockOf(st.disk, st.files[m], Data(j)))
            == BlockAt(st.disk, BlockOf(st.disk, st.files[m], Data(j))))
  }

  lemma KeptSame(st: Store, st': Store, count: map<nat, nat>, m: nat)
    requires ShapeOk(st, count) && Kept(st, st', count) && m in count
    ensures SameBlocks(st, st', m, count[m])
  {
    forall j | 0 <= j < count[m]
      ensures BlockOf(st'.disk, st'.files[m], Data(j)) == BlockOf(st.disk, st.files[m], Data(j))
    {
      assert InFile(count[m], Data(j));
    }
  }

  lemma TakenKept(st: Store, count: map<nat, nat>, b: nat)
    requires StoreOk(st, count) && b < |st.used|
    ensures StoreOk(WithTaken(st, b), count) && Kept(st, WithTaken(st, b), count)
  {
  }

  lemma PointerKept(st: Store, count: map<nat, nat>, i: nat, k: nat, b: nat)
    requires StoreOk(st, count) && i in count && k == Pointers(count[i]) && k * PTRS == count[i] && k < INDIRECT - 1
    requires b < |st.disk| && !InUse(st, b)
    ensures Kept(st, WithPointer(st, i, k, b), count)
  {
    UnusedIsUnowned(st, count, b);
    var st' := WithPointer(st, i, k, b);
    forall m, q | m in count && InFile(count[m], q)
      ensures BlockOf(st'.disk, st'.files[m], q) == BlockOf(st.disk, st.files[m], q)
    {
      if q.Data? {
        PointerOfData(count[m], q.j);
        assert BlockOf(st.disk, st.files[m], Pointer(q.j / PTRS)) != b;
        assert m == i ==> q.j / PTRS < k;
      }
    }
    forall m, j | m in count && 0 <= j < count[m] ensures BlockOf(st.disk, st.files[m], Data(j)) != b {
      assert InFile(count[m], Data(j));
    }
  }

  lemma KeptOwned(st: Store, st': Store, count: map<nat, nat>)
    requires StoreOk(st, count) && Kept(st, st', count)
    requires forall b: nat :: InUse(st, b) ==> InUse(st', b)
    ensures StoreOk(st', count)
    ensures forall b :: Unowned(st, count, b) ==> Unowned(st', count, b)
  {
  }

  /** The pointer block with room for one more data block of file i is its own or nobody's. */
  ghost predicate HasPointer(st: Store, count: map<nat, nat>, i: nat, b: nat)
    requires ShapeOk(st, count)
  {
    && i in count && count[i] / PTRS < INDIRECT - 1
    && st.files[i].index[count[i] / PTRS] == b && InUse(st, b)
    && forall m, q :: m in count && InFile(count[m], q) && BlockOf(st.disk, st.files[m], q) == b ==>
      m == i && q == Pointer(count[i] / PTRS)
  }

  lemma WordKept(st: Store, count: map<nat, nat>, i: nat, b: nat, node: nat)
    requires StoreOk(st, count) && HasPointer(st, count, i, b) && node < WORD
    ensures var st' := WithBlock(st, b, PutWord(st.disk[b], count[i] % PTRS, node));
      Kept(st, st', count) && BlockOf(st'.disk, st'.files[i], Data(count[i])) == node
  {
    var e := count[i] % PTRS;
    var st' := WithBlock(st, b, PutWord(st.disk[b], e, node));
    PutGet(st.disk[b], e, node, e);
    forall m, q | m in count && InFile(count[m], q)
      ensures BlockOf(st'.disk, st'.files[m], q) == BlockOf(st.disk, st.files[m], q)
    {
      if q.Data? {
        PointerOfData(count[m], q.j);
        if BlockOf(st.disk, st.files[m], Pointer(q.j / PTRS)) == b {
          assert m == i && q.j / PTRS == count[i] / PTRS && q.j % PTRS != e;
          PutGet(st.disk[b], e, node, q.j % PTRS);
        }
      }
    }
    forall m, j | m in count && 0 <= j < count[m] ensures BlockOf(st.disk, st.files[m], Data(j)) != b {
      assert InFile(count[m], Data(j));
    }
  }

  /** One more data block: the new slots hold the new block and its pointer block. */
  lemma GrownOwned(st: Store, count: map<nat, nat>, i: nat, b: nat, node: nat)
    requires StoreOk(st, count) && HasPointer(st, count, i, b) && count[i] < MAX_SIZE / BLOCK
    requires InUse(st, node) && Unowned(st, count, node) && node != b
    requires BlockOf(st.disk, st.files[i], Data(count[i])) == node
    ensures StoreOk(st, count[i := count[i] + 1])
  {
    var n := count[i];
    var grown := count[i := n + 1];
    forall m, q | m in grown && InFile(grown[m], q) && !(m in count && InFile(count[m], q))
      ensures m == i && (q == Data(n) || q == Pointer(n / PTRS))
    {
    }
    assert BlockOf(st.disk, st.files[i], Pointer(n / PTRS)) == b;
  }

  lemma {:induction false} AddBlockOk(st: Store, count: map<nat, nat>, i: nat, node: nat)
    requires StoreOk(st, count) && i in count && st.files[i].size < MAX_SIZE
    requires count[i] == st.files[i].size / BLOCK
    requires InUse(st, node) && Unowned(st, count, node)
    requires EntryIndex(st.files[i].size) == 0 ==> FreeBlocks(st) != {}
    ensures EntryIndex(st.files[i].size) == 0 ==> Taken(st) < |st.disk|
    ensures EntryIndex(st.files[i].size) > 0 ==>
      BlockOf(st.disk, st.files[i], Pointer(PointerIndex(st.files[i].size))) < |st.disk|
    ensures var (st', r) := AddBlock(st, i, node);
      && r == 0 && StoreOk(st', count[i := count[i] + 1]) && Kept(st, st', count)
      && DataBlock(st', i, count[i]) == node
      && FreeBlocks(st') == FreeBlocks(st) - (if EntryIndex(st.files[i].size) == 0 then {Taken(st)} else {})
      && (forall m :: 0 <= m < |st.files| && m != i ==> st'.files[m] == st.files[m])
  {
    var size := st.files[i].size;
    var k, e := PointerIndex(size), EntryIndex(size);
    PositionOfBlock(size);
    var st1 := if e == 0 then WithPointer(st, i, k, Taken(st)) else st;
    if e == 0 {
      TakenIsFree(st);
      PointerKept(st, count, i, k, Taken(st));
      UnusedIsUnowned(st, count, Taken(st));
      KeptOwned(st, st1, count);
    } else {
      assert InFile(count[i], Pointer(k));
    }
    var b := st1.files[i].index[k];
    assert HasPointer(st1, count, i, b);
    assert Unowned(st1, count, node) && node != b;
    WordKept(st1, count, i, b, node);
    var st2 := WithBlock(st1, b, PutWord(st1.disk[b], e, node));
    KeptOwned(st1, st2, count);
    assert HasPointer(st2, count, i, b);
    GrownOwned(st2, count, i, b, node);
  }
}
