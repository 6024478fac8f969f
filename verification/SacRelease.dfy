/** What eliminarNodos leaves when it deletes a whole file (Sac-Server/estructuras.c). */
module SacRelease {
  import opened SacDisk
  import opened SacGrowth
  import opened SacWrite

  /** Block b is in some slot of file i. */
  ghost predicate Owns(st: Store, i: nat, b: nat)
    requires i < |st.files|
  {
    exists q :: InFile(Blocks(st.files[i].size), q) && BlockOf(st.disk, st.files[i], q) == b
  }

  /** The first n entries of an index zeroed. */
  function Cut(index: Index, n: nat): Index {
    seq(INDIRECT, k requires 0 <= k < INDIRECT => if k < n then 0 else index[k])
  }

  /** All blocks of file i are free again and counted, each data block once; a file of size 0 keeps its
      two blocks, which nobody will free. */
  ghost function Released(st: Store, i: nat): Store
    requires i < |st.files|
  {
    var f := st.files[i];
    if f.size == 0 then st
    else
      st.(used := seq(|st.used|, b requires 0 <= b < |st.used| => st.used[b] && !Owns(st, i, b)),
          free := st.free + Blocks(f.size),
          files := st.files[i := f.(index := Cut(f.index, Pointers(Blocks(f.size))))])
  }

  /** The rest of the disk: the other live files keep their blocks and bytes. */
  lemma ReleasedOk(st: Store, count: map<nat, nat>, i: nat)
    requires StoreOk(st, count) && CountsOk(st, count) && i in count
    ensures StoreOk(Released(st, i), count - {i}) && CountsOk(Released(st, i), count - {i})
    ensures OthersKept(st, Released(st, i), count, i)
  {
    var st' := Released(st, i);
    forall m, q | m in count && m != i && InFile(count[m], q)
      ensures BlockOf(st'.disk, st'.files[m], q) == BlockOf(st.disk, st.files[m], q)
        && InUse(st', BlockOf(st.disk, st.files[m], q))
    {
      var b := BlockOf(st.disk, st.files[m], q);
      assert InUse(st, b);
      assert !Owns(st, i, b);
    }
    forall m | m in count && m != i ensures Contents(st', m) == Contents(st, m) {
      SameContents(st, st', m);
    }
  }

  // ---- how many blocks come free ----

  /** The blocks in the first p pointer slots and the first n data slots of file i. */
  ghost function OwnedBlocks(st: Store, i: nat, p: nat, n: nat): set<nat>
    requires i < |st.files|
    decreases p + n
  {
    if n > 0 then OwnedBlocks(st, i, p, n - 1) + {BlockOf(st.disk, st.files[i], Data(n - 1))}
    else if p > 0 then OwnedBlocks(st, i, p - 1, 0) + {BlockOf(st.disk, st.files[i], Pointer(p - 1))}
    else {}
  }

  predicate Among(q: Slot, p: nat, n: nat) {
    match q
    case Pointer(k) => k < p
    case Data(j) => j < n
  }

  lemma {:induction false} OwnedMembers(st: Store, i: nat, p: nat, n: nat, b: nat)
    requires i < |st.files|
    ensures b in OwnedBlocks(st, i, p, n) <==> exists q :: Among(q, p, n) && BlockOf(st.disk, st.files[i], q) == b
    decreases p + n
  {
    if n > 0 {
      OwnedMembers(st, i, p, n - 1, b);
      assert forall q :: Among(q, p, n) <==> Among(q, p, n - 1) || q == Data(n - 1);
    } else if p > 0 {
      OwnedMembers(st, i, p - 1, 0, b);
      assert forall q :: Among(q, p, 0) <==> Among(q, p - 1, 0) || q == Pointer(p - 1);
    }
  }

  /** Owned blocks are as many as slots. */
  lemma {:induction false} OwnedCounted(st: Store, count: map<nat, nat>, i: nat, p: nat, n: nat)
    requires StoreOk(st, count) && i in count && p <= Pointers(count[i]) && n <= count[i]
    ensures |OwnedBlocks(st, i, p, n)| == p + n
    decreases p + n
  {
    hide StoreOk, BlockOf;
    if n > 0 {
      OwnedCounted(st, count, i, p, n - 1);
      LastIsNew(st, count, i, p, n - 1, Data(n - 1));
    } else if p > 0 {
      OwnedCounted(st, count, i, p - 1, 0);
      LastIsNew(st, count, i, p - 1, 0, Pointer(p - 1));
    }
  }

  lemma LastIsNew(st: Store, count: map<nat, nat>, i: nat, p: nat, n: nat, q: Slot)
    requires StoreOk(st, count) && i in count && p <= Pointers(count[i]) && n <= count[i]
    requires InFile(count[i], q) && !Among(q, p, n)
    ensures BlockOf(st.disk, st.files[i], q) !in OwnedBlocks(st, i, p, n)
  {
    OwnedMembers(st, i, p, n, BlockOf(st.disk, st.files[i], q));
    forall r | Among(r, p, n) ensures BlockOf(st.disk, st.files[i], r) != BlockOf(st.disk, st.files[i], q) {
      assert InFile(count[i], r);
    }
  }

  /** Exact release: a file of size s > 0 gives back ceil(s / 4096) data blocks and their pointer blocks,
      all of them in use before; nothing else becomes free. A file of size 0 gives back nothing. */
  lemma ReleaseFrees(st: Store, count: map<nat, nat>, i: nat)
    requires StoreOk(st, count) && CountsOk(st, count) && i in count
    ensures var n, s := Blocks(st.files[i].size), st.files[i].size;
      && |st.disk| <= |st.used| && |Released(st, i).disk| <= |Released(st, i).used|
      && (s > 0 ==> n * BLOCK - BLOCK < s <= n * BLOCK)
      && (s > 0 ==> FreeBlocks(Released(st, i)) == FreeBlocks(st) + OwnedBlocks(st, i, Pointers(n), n))
      && FreeBlocks(st) !! OwnedBlocks(st, i, Pointers(n), n)
      && |FreeBlocks(Released(st, i))| == |FreeBlocks(st)| + if s == 0 then 0 else n + Pointers(n)
  {
    var n := Blocks(st.files[i].size);
    var owned := OwnedBlocks(st, i, Pointers(n), n);
    OwnedCounted(st, count, i, Pointers(n), n);
    forall b: nat ensures b in owned <==> Owns(st, i, b) {
      OwnedMembers(st, i, Pointers(n), n, b);
      assert forall q :: Among(q, Pointers(n), n) <==> InFile(n, q);
    }
    forall b | b in owned ensures InUse(st, b) {
      var q :| InFile(n, q) && BlockOf(st.disk, st.files[i], q) == b;
    }
    if st.files[i].size > 0 {
      FreedSet(st, i, owned);
    }
  }

  /** bitmap_free_blocks goes up by the data blocks, the index entries of the file are zeroed, and nothing
      else of the node table or of any block changes. */
  lemma ReleaseCounts(st: Store, i: nat)
    requires i < |st.files| && Pointers(Blocks(st.files[i].size)) <= INDIRECT
    ensures var st', s := Released(st, i), st.files[i].size;
      && st'.disk == st.disk && st'.base == st.base && |st'.files| == |st.files|
      && (s > 0 ==> st'.free == st.free + (s + BLOCK - 1) / BLOCK)
      && (s == 0 ==> st' == st)
      && st'.files[i].size == s
      && (s > 0 ==> forall k :: 0 <= k < INDIRECT ==>
            st'.files[i].index[k] == if k * PTRS * BLOCK < s then 0 else st.files[i].index[k])
      && (forall m :: 0 <= m < |st.files| && m != i ==> st'.files[m] == st.files[m])
  {
    var s := st.files[i].size;
    forall k | 0 <= k < INDIRECT && s > 0 ensures k < Pointers(Blocks(s)) <==> k * PTRS * BLOCK < s {
      PointerCovers(s, k);
    }
  }

  lemma PointerCovers(s: nat, k: nat)
    requires s > 0
    ensures k < Pointers(Blocks(s)) <==> k * PTRS * BLOCK < s
  {
    assert k < Pointers(Blocks(s)) <==> k * PTRS < Blocks(s);
  }

  lemma FreedSet(st: Store, i: nat, owned: set<nat>)
    requires i < |st.files| && st.files[i].size > 0 && |st.disk| <= |st.used|
    requires forall b: nat :: b in owned <==> Owns(st, i, b)
    requires forall b :: b in owned ==> InUse(st, b)
    ensures FreeBlocks(Released(st, i)) == FreeBlocks(st) + owned && FreeBlocks(st) !! owned
    ensures |FreeBlocks(Released(st, i))| == |FreeBlocks(st)| + |owned|
  {
    var st' := Released(st, i);
    forall b: nat | st.base <= b < |st.disk| ensures !st'.used[b] <==> !st.used[b] || b in owned {
    }
  }

  // ---- the loops of eliminarNodos ----

  /** The slots of file i after pointer block p and data block t, which the loops have dealt with. */
  predicate After(n: nat, q: Slot, p: int, t: int) {
    match q
    case Pointer(k) => p < k < Pointers(n)
    case Data(j) => t < j < n
  }

  ghost predicate OwnsAfter(st: Store, i: nat, p: int, t: int, b: nat)
    requires i < |st.files|
  {
    exists q :: After(Blocks(st.files[i].size), q, p, t) && BlockOf(st.disk, st.files[i], q) == b
  }

  /** now is st with the blocks after (p, t) freed, the data blocks among them counted, and the index
      entries after p zeroed. */
  ghost predicate Deleting(st: Store, now: Store, i: nat, p: int, t: int) {
    && i < |st.files| && i < |now.files| && -1 <= p && -1 <= t
    && now.disk == st.disk && now.base == st.base && |now.used| == |st.used|
    && (forall b :: 0 <= b < |st.used| ==>
      (now.used[b] <==> st.used[b] && !(st.files[i].size > 0 && OwnsAfter(st, i, p, t, b))))
    && now.free == st.free + (if st.files[i].size == 0 then 0 else Blocks(st.files[i].size) - 1 - t)
    && now.files == st.files[i := st.files[i].(index := now.files[i].index)]
    && (forall k :: 0 <= k < INDIRECT ==>
          now.files[i].index[k]
            == if p < k < Pointers(Blocks(st.files[i].size)) && st.files[i].size > 0 then 0 else st.files[i].index[k])
  }

  /** Where deletion starts: at the block of the last byte. */
  lemma LastBlock(size: nat)
    ensures size > 0 && size % (BLOCK * PTRS) == 0 ==> (PointerIndex(size) - 1) * PTRS + PTRS - 1 == Blocks(size) - 1
    ensures size % (BLOCK * PTRS) != 0 && size % BLOCK == 0 ==>
      PointerIndex(size) * PTRS + EntryIndex(size) - 1 == Blocks(size) - 1 && EntryIndex(size) > 0
    ensures size % BLOCK != 0 ==> PointerIndex(size) * PTRS + EntryIndex(size) == Blocks(size) - 1
  {
    PositionOfBlock(size);
  }

  lemma StartDeleting(st: Store, i: nat, p: int, t: int)
    requires i < |st.files| && st.files[i].size < MAX_SIZE
    requires if st.files[i].size == 0 then p == -1 && t == -1
             else t == Blocks(st.files[i].size) - 1 && p == t / PTRS
    ensures Deleting(st, st, i, p, t)
  {
    assert forall q :: st.files[i].size > 0 ==> !After(Blocks(st.files[i].size), q, p, t);
    assert st.files[i := st.files[i].(index := st.files[i].index)] == st.files;
  }

  lemma OneDeleted(st: Store, now: Store, count: map<nat, nat>, i: nat, p: nat, d: nat)
    requires StoreOk(st, count) && CountsOk(st, count) && i in count && st.files[i].size > 0
    requires d < PTRS && p * PTRS + d < Blocks(st.files[i].size) && Deleting(st, now, i, p, p * PTRS + d)
    ensures p < INDIRECT && now.files[i].index[p] == st.files[i].index[p] < |st.disk|
    ensures var b := GetWord(BlockAt(st.disk, st.files[i].index[p]), d);
      && b < |st.used| && b < |now.used|
      && Deleting(st, now.(used := now.used[b := false], free := now.free + 1), i, p, p * PTRS + d - 1)
  {
    var t, n := p * PTRS + d, Blocks(st.files[i].size);
    PointerOfData(n, t);
    assert t / PTRS == p && t % PTRS == d;
    assert InFile(count[i], Pointer(p)) && InFile(count[i], Data(t));
    assert BlockOf(st.disk, st.files[i], Pointer(p)) == st.files[i].index[p];
    var b := BlockOf(st.disk, st.files[i], Data(t));
    forall c: nat ensures OwnsAfter(st, i, p, t - 1, c) <==> OwnsAfter(st, i, p, t, c) || c == b {
      assert After(n, Data(t), p, t - 1);
      assert forall q :: After(n, q, p, t - 1) <==> After(n, q, p, t) || q == Data(t);
    }
  }

  lemma PointerDeleted(st: Store, now: Store, count: map<nat, nat>, i: nat, p: nat)
    requires StoreOk(st, count) && CountsOk(st, count) && i in count && st.files[i].size > 0
    requires p * PTRS < Blocks(st.files[i].size) && Deleting(st, now, i, p, p * PTRS - 1)
    ensures p < INDIRECT && now.files[i].index[p] == st.files[i].index[p] < |st.disk| <= |st.used| == |now.used|
    ensures var index := now.files[i].index[p := 0];
      Deleting(st, now.(used := now.used[st.files[i].index[p] := false],
                        files := now.files[i := now.files[i].(index := index)]), i, p - 1, p * PTRS - 1)
  {
    var t, n := p * PTRS - 1, Blocks(st.files[i].size);
    PointerOfData(n, p * PTRS);
    assert InFile(count[i], Pointer(p));
    var b := BlockOf(st.disk, st.files[i], Pointer(p));
    forall c: nat ensures OwnsAfter(st, i, p - 1, t, c) <==> OwnsAfter(st, i, p, t, c) || c == b {
      assert After(n, Pointer(p), p - 1, t);
      assert forall q :: After(n, q, p - 1, t) <==> After(n, q, p, t) || q == Pointer(p);
    }
  }

  lemma AllDeleted(st: Store, now: Store, i: nat)
    requires Deleting(st, now, i, -1, -1)
    ensures now == Released(st, i)
  {
    var n := Blocks(st.files[i].size);
    forall b: nat ensures OwnsAfter(st, i, -1, -1, b) <==> Owns(st, i, b) {
      assert forall q :: After(n, q, -1, -1) <==> InFile(n, q);
    }
    if st.files[i].size == 0 {
      assert now.files[i].index == st.files[i].index;
      assert st.files[i := st.files[i].(index := st.files[i].index)] == st.files;
    } else {
      assert now.files[i].index == Cut(st.files[i].index, Pointers(n));
    }
    assert now.used == Released(st, i).used;
  }

  lemma DeletingDisk(st: Store, now: Store, i: nat, p: int, t: int)
    requires Deleting(st, now, i, p, t)
    ensures now.disk == st.disk
  {
  }
}
