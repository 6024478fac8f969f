/** The SAC file server process: node table, blocks and bitmap, updated in place by its operations. */
module SacServer {
  import opened SacPaths
  import opened SacTree
  import opened SacTreeOps
  import opened SacDisk
  import opened SacGrowth
  import opened SacWrite
  import opened SacRelease
  import opened SacRead
  import opened SacFs

  class Server {
    const dir: array<Entry>
    const files: array<Inode>
    const disk: array<Block>
    const used: array<bool>
    const base: nat
    var free: int

    ghost function StoreNow(): Store
      reads this, files, disk, used
    {
      Store(files[..], disk[..], used[..], free, base)
    }

    ghost function Now(): Fs
      reads this, dir, files, disk, used
    {
      Fs(dir[..], StoreNow())
    }

    /** The start of the server: node table, blocks and bitmap are those of the mapped disk, and
        obtenerBloquesLibres counts the clear bits. */
    constructor (table: array<Entry>, inodes: array<Inode>, blocks: array<Block>, bitmap: array<bool>, firstData: nat)
      ensures dir == table && files == inodes && disk == blocks && used == bitmap && base == firstData
      ensures Now() == Fs(table[..], Store(inodes[..], blocks[..], bitmap[..], ClearBits(bitmap[..], 0), firstData))
      ensures blocks.Length <= bitmap.Length ==> FreeCounted(StoreNow())
    {
      dir, files, disk, used, base := table, inodes, blocks, bitmap, firstData;
      free := 0;
      new;
      var i := 0;
      while i < used.Length
        invariant 0 <= i <= used.Length
        invariant free + ClearBits(used[..], i) == ClearBits(used[..], 0)
      {
        if !used[i] {
          free := free + 1;
        }
        i := i + 1;
      }
      if disk.Length <= used.Length {
        StartIsCounted(StoreNow());
      }
    }

    /** dameNodoDe */
    method Find(path: string) returns (n: int)
      requires Absolute(path)
      ensures n == Resolve(dir[..], path)
      decreases |path|
    {
      if path == "/" {
        return 0;
      }
      var parent := Find(SuperPart(path));
      var name := NamePart(path);
      var i := 0;
      while i < dir.Length && !IsChild(dir[i], parent, name)
        invariant i <= dir.Length
        invariant FindChild(dir[..], parent, name, i) == FindChild(dir[..], parent, name, 0)
      {
        i := i + 1;
      }
      n := if i >= dir.Length then -1 else i + 1;
    }

    /** The search for a free entry of o_create and o_mkdir: the entry looked at trails the counter by
        one, and the table is full when the counter passes its size. */
    method FindSlot() returns (k: nat)
      requires dir.Length == NODES
      ensures k == FirstFree(dir[..], 0)
    {
      var node, i := 0, 0;
      while i <= NODES && dir[node].state != DELETED
        invariant 0 <= i <= NODES + 1 && node == (if i == 0 then 0 else i - 1)
        invariant if i <= NODES then FirstFree(dir[..], node) == FirstFree(dir[..], 0)
                  else FirstFree(dir[..], 0) == NODES
        decreases NODES + 1 - i
      {
        node := i;
        i := i + 1;
      }
      k := node;
    }

    /** obtenerBloqueLibre */
    method TakeBlock() returns (b: nat)
      requires base <= used.Length && FirstClear(used[..], base) < used.Length
      modifies used
      ensures b == FirstClear(old(used[..]), base) && used[..] == old(used[..])[b := true]
    {
      b := base;
      while b < used.Length && used[b]
        invariant base <= b <= used.Length
        invariant FirstClear(used[..], b) == FirstClear(used[..], base)
      {
        b := b + 1;
      }
      used[b] := true;
    }

    /** agregarBloqueLibre */
    method EnterBlock(i: nat, node: nat) returns (r: int)
      requires i < files.Length && files[i].size < MAX_SIZE && node < WORD
      requires base <= disk.Length <= used.Length <= WORD
      requires EntryIndex(files[i].size) == 0 ==> FirstClear(used[..], base) < disk.Length
      requires EntryIndex(files[i].size) > 0 ==>
        BlockOf(disk[..], files[i], Pointer(PointerIndex(files[i].size))) < disk.Length
      modifies files, disk, used
      ensures (StoreNow(), r) == AddBlock(old(StoreNow()), i, node)
    {
      var k, e := PointerIndex(files[i].size), EntryIndex(files[i].size);
      PositionOfBlock(files[i].size);
      if k == INDIRECT - 1 && e == PTRS - 1 {
        return -ENOSPC;
      }
      if e == 0 {
        var p := TakeBlock();
        disk[p] := Zeros();
        files[i] := files[i].(index := files[i].index[k := p][k + 1 := 0]);
      }
      var b := files[i].index[k];
      disk[b] := PutWord(disk[b], e, node);
      r := 0;
    }

    /** o_create */
    method Create(path: string) returns (r: int)
      requires Absolute(path) && RoomForFile(Now(), path)
      modifies dir, files, disk, used
      ensures (Now(), r) == CreateFile(old(Now()), path)
    {
      hide SiblingsDiffer, ParentsLive, Rooted, NamesClean;
      var n := Find(path);
      if n != -1 {
        return 1;
      }
      var parent := Find(SuperPart(path));
      if parent < 0 {
        return 1;
      }
      var k := FindSlot();
      if k >= NODES {
        return -EDQUOT;
      }
      hide Resolve, FindChild, FirstFree, FsOk, AddBlock, FirstClear;
      assert |FreeBlocks(StoreNow())| >= 2;
      TwoFree(StoreNow());
      hide FreeBlocks, NewFile;
      dir[k] := Entry(FILE, NamePart(path), parent);
      StartFile(k);
      r := 0;
    }

    /** The storage half of o_create: size 0, the mark in the index, and a cleared first block. */
    method StartFile(k: nat)
      requires k < files.Length && base <= disk.Length <= used.Length <= WORD
      requires Taken(StoreNow()) < disk.Length && Taken(WithTaken(StoreNow(), Taken(StoreNow()))) < disk.Length
      modifies files, disk, used
      ensures StoreNow() == NewFile(old(StoreNow()), k)
    {
      hide FirstClear, AddBlock;
      files[k] := Inode(0, files[k].index[0 := 0]);
      assert StoreNow() == NewInode(old(StoreNow()), k);
      var b := TakeBlock();
      assert StoreNow() == WithTaken(NewInode(old(StoreNow()), k), b);
      var _ := EnterBlock(k, b);
      disk[b] := Zeros();
    }

    /** o_mkdir */
    method Mkdir(path: string) returns (r: int)
      requires Absolute(path) && dir.Length == files.Length == NODES
      modifies dir, files
      ensures (Now(), r) == MakeDirectory(old(Now()), path)
    {
      var n := Find(path);
      if n != -1 {
        return 1;
      }
      var parent := Find(SuperPart(path));
      if parent < 0 {
        return 1;
      }
      var k := FindSlot();
      if k >= NODES {
        return 1;
      }
      dir[k] := Entry(DIRECTORY, NamePart(path), parent);
      files[k] := files[k].(size := 0);
      r := 0;
    }

    /** o_rename */
    method Rename(old_: string, new_: string) returns (r: int)
      requires Absolute(old_) && Resolve(dir[..], old_) != 0 && (Resolve(dir[..], old_) != -1 ==> Splittable(new_))
      modifies dir
      ensures (Now(), r) == RenameEntry(old(Now()), old_, new_)
    {
      var n := Find(old_);
      ResolveIsLookup(dir[..], old_);
      LookupRange(dir[..], Components(old_));
      if n == -1 {
        return -1;
      }
      var parent := Find(SuperPart(new_));
      dir[n - 1] := dir[n - 1].(name := NamePart(new_), parent := parent);
      r := 0;
    }

    /** o_rmdir, on names, parents and states: the entry and all below it are marked deleted. */
    method Rmdir(path: string) returns (r: int)
      requires TreeOk(dir[..]) && Absolute(path) && Resolve(dir[..], path) != 0
      modifies dir
      ensures r == if Resolve(old(dir[..]), path) == -1 then -1 else 0
      ensures dir[..] == TreeServe(old(dir[..]), RemoveAll(path))
      ensures forall i :: 0 <= i < dir.Length ==>
        && dir[i].name == old(dir[i]).name && dir[i].parent == old(dir[i]).parent
        && dir[i].state == if AtOrUnder(old(dir[..]), i + 1, Components(path)) then DELETED else old(dir[i]).state
    {
      ghost var t, c := dir[..], Components(path);
      var n := Find(path);
      ResolveIsLookup(t, path);
      LookupRange(t, c);
      if n == -1 {
        NothingUnder(t, c);
        return -1;
      }
      LookupHasPath(t, c);
      EliminateBelow(dir, n, c);
      BelowAndItself(t, n, c);
      assert dir[..][n - 1] == dir[n - 1];
      dir[n - 1] := dir[n - 1].(state := DELETED);
      r := 0;
    }

    /** One turn of the loop of o_write: how many bytes it took, or an error code. */
    method WriteTurn(i: nat, buf: seq<Byte>, off: nat, at: nat, ghost count: map<nat, nat>)
        returns (taken: nat, code: int)
      requires CanAppend(StoreNow(), count, i, buf, off, at) && buf != []
      modifies files, disk, used
      ensures WriteStep(old(StoreNow()), count, i, buf, off, at) ==
        if code == 0 then Wrote(StoreNow(), taken) else Failed(StoreNow(), code)
    {
      StepBlocks(StoreNow(), count, i, buf);
      var size := files[i].size;
      var space := BLOCK - size % BLOCK;
      if space == BLOCK {
        space := 0;
      }
      if size == 0 {
        space := BLOCK;
      }
      var b: nat;
      if off >= size + space && size != 0 {
        if free == 0 {
          return 0, -1;
        }
        b := TakeBlock();
        code := EnterBlock(i, b);
        if code != 0 {
          return 0, code;
        }
        space := BLOCK;
      } else {
        LastPointer(StoreNow(), count, i);
        b := GetWord(disk[files[i].index[PointerIndex(off)]], EntryIndex(off));
      }
      taken := FillBlock(i, b, space, buf, off, at);
      code := 0;
    }

    /** The three ways o_write copies the buffer into a block. */
    method FillBlock(i: nat, b: nat, space: nat, buf: seq<Byte>, off: nat, at: nat) returns (taken: nat)
      requires i < files.Length && b < disk.Length
      requires |buf| < BLOCK ==> at + |buf| <= BLOCK || at + space <= BLOCK
      requires |buf| < BLOCK && |buf| <= space ==> at + |buf| <= BLOCK
      modifies files, disk
      ensures Fill(old(StoreNow()), i, b, space, buf, off, at) == Wrote(StoreNow(), taken)
    {
      var size := files[i].size;
      if |buf| >= BLOCK {
        disk[b] := buf[..BLOCK];
        if size <= off {
          files[i] := files[i].(size := size + BLOCK);
        }
        taken := BLOCK;
      } else if |buf| <= space {
        disk[b] := Blit(disk[b], at, buf);
        if size <= off {
          files[i] := files[i].(size := size + |buf|);
        } else if size <= off + |buf| {
          files[i] := files[i].(size := off + |buf|);
        }
        taken := |buf|;
      } else {
        disk[b] := Blit(disk[b], at, buf[..space]);
        files[i] := files[i].(size := size + space);
        taken := space;
      }
    }

    /** The loop of o_write */
    method WriteFrom(i: nat, buf: seq<Byte>, off: nat, ghost count: map<nat, nat>) returns (code: int)
      requires CanAppend(StoreNow(), count, i, buf, off, off % BLOCK)
      modifies files, disk, used
      ensures (StoreNow(), code) == WriteLoop(old(StoreNow()), count, i, buf, off, off % BLOCK)
    {
      hide CanAppend, WriteStep;
      ghost var goal := WriteLoop(StoreNow(), count, i, buf, off, off % BLOCK);
      ghost var n: map<nat, nat> := count;
      var rest: seq<Byte>, cur: nat, at: nat := buf, off, off % BLOCK;
      while rest != []
        invariant CanAppend(StoreNow(), n, i, rest, cur, at)
        invariant WriteLoop(StoreNow(), n, i, rest, cur, at) == goal
        decreases |rest|
      {
        TurnOk(StoreNow(), n, i, rest, cur, at);
        var taken: nat;
        hide WriteLoop;
        taken, code := WriteTurn(i, rest, cur, at, n);
        if code != 0 {
          return code;
        }
        n := n[i := Blocks(cur + taken)];
        rest, cur, at := rest[taken..], cur + taken, 0;
      }
      code := 0;
    }

    /** o_write */
    method Write(path: string, buf: seq<Byte>, off: nat) returns (r: int)
      requires MayWrite(Now(), path, buf, off)
      modifies files, disk, used
      ensures (Now(), r) == WriteFile(old(Now()), path, buf, off)
    {
      hide CanAppend, WriteLoop, FsOk, Resolve, Count;
      var n := Find(path);
      r := WriteFrom(n - 1, buf, off, Count(Now()));
      if r == 0 {
        r := |buf|;
      }
    }

    /** The two loops of o_read, over pointer blocks and over the data blocks of each. The first skips
        whole pointer blocks while the offset is past them (not at them: an offset of exactly 4 MiB is
        left to the second). */
    method ReadRange(i: nat, size: nat, offset: nat, ghost count: map<nat, nat>) returns (out: seq<Byte>)
      requires StoreOk(StoreNow(), count) && CountsOk(StoreNow(), count) && i in count
      requires offset < files[i].size && offset + size <= files[i].size
      requires offset % BLOCK == 0 || offset % BLOCK + size <= BLOCK
      ensures out == Contents(StoreNow(), i)[offset..offset + size]
    {
      hide Reading, Contents, StoreOk, CountsOk;
      ghost var st := StoreNow();
      SizeBound(st, count, i);
      StoreLengths(st, count);
      StartReading(st, i, size, offset);
      out := [];
      var rest: nat, skip: nat := size, offset;
      var done := false;
      var k: nat := 0;
      while k < INDIRECT && !done
        invariant 0 <= k <= INDIRECT
        invariant Reading(st, i, size, offset, k * PTRS, skip, rest, out, done)
        decreases INDIRECT - k
      {
        if skip > BLOCK * PTRS {
          SkipBlocks(st, i, size, offset, k * PTRS, skip, rest, out, PTRS);
          skip := skip - BLOCK * PTRS;
        } else {
          var j: nat := 0;
          while j < PTRS && !done
            invariant 0 <= j <= PTRS
            invariant Reading(st, i, size, offset, k * PTRS + j, skip, rest, out, done)
            decreases PTRS - j
          {
            if skip >= BLOCK {
              SkipBlocks(st, i, size, offset, k * PTRS + j, skip, rest, out, 1);
              skip := skip - BLOCK;
            } else {
              CopyChunk(st, count, i, size, offset, k, j, skip, rest, out);
              var b := GetWord(disk[files[i].index[k]], j);
              var m := if rest < BLOCK then rest else BLOCK;
              out := out + disk[b][skip..skip + m];
              skip := 0;
              rest := rest - m;
              done := rest == 0;
            }
            j := j + 1;
          }
          ReadingDone(st, i, size, offset, k * PTRS + j, (k + 1) * PTRS, skip, rest, out, done);
        }
        k := k + 1;
      }
      EndReading(st, i, size, offset, k * PTRS, skip, rest, out, done);
    }

    /** o_read: the number of bytes, or -1, and the bytes. */
    method Read(path: string, size: nat, offset: nat) returns (r: int, out: seq<Byte>)
      requires FsOk(Now()) && Absolute(path) && (Resolve(dir[..], path) == -1 || IsFile(Now(), path))
      requires offset + size < MAX_SIZE
      requires IsFile(Now(), path) ==>
        var length := files[Resolve(dir[..], path) - 1].size;
        || length <= offset || offset % BLOCK == 0
        || offset % BLOCK + size <= BLOCK || offset % BLOCK + length - offset <= BLOCK
      ensures Resolve(dir[..], path) == -1 ==> r == -1 && out == []
      ensures IsFile(Now(), path) ==>
        var bytes := Contents(StoreNow(), Resolve(dir[..], path) - 1);
        && 0 <= r <= size
        && (r < size ==> |bytes| <= offset + r)
        && (r == 0 ==> out == [])
        && (r > 0 ==> offset + r <= |bytes| && out == bytes[offset..offset + r])
    {
      hide StoreOk, SiblingsDiffer, ParentsLive, Rooted, NamesClean, Resolve, Contents;
      out := [];
      var n := Find(path);
      if n == -1 {
        return -1, [];
      }
      var i: nat := n - 1;
      var length := size;
      if files[i].size <= offset {
        return 0, [];
      } else if files[i].size <= offset + size {
        length := files[i].size - offset;
      }
      CountsAlwaysOk(Now());
      out := ReadRange(i, length, offset, Count(Now()));
      r := length;
    }

    /** The inner loop of eliminarNodos: the data blocks of one pointer block, from entry d back. */
    method DeleteData(i: nat, p: nat, pointer: nat, d: nat, ghost st: Store, ghost count: map<nat, nat>)
      requires StoreOk(st, count) && CountsOk(st, count) && i in count && st.files[i].size > 0
      requires d < PTRS && p * PTRS + d < Blocks(st.files[i].size)
      requires p < INDIRECT && pointer == st.files[i].index[p] < disk.Length && i < files.Length
      requires Deleting(st, StoreNow(), i, p, p * PTRS + d)
      modifies used, `free
      ensures Deleting(st, StoreNow(), i, p, p * PTRS - 1)
    {
      hide Deleting, StoreOk, CountsOk;
      assert disk[..] == st.disk by { DeletingDisk(st, StoreNow(), i, p, p * PTRS + d); }
      StoreLengths(st, count);
      ghost var n := Blocks(st.files[i].size);
      var e: int := d;
      while e + 1 != 0
        invariant -1 <= e < PTRS && p * PTRS + e < n
        invariant Deleting(st, StoreNow(), i, p, p * PTRS + e)
        decreases e
      {
        OneDeleted(st, StoreNow(), count, i, p, e);
        used[GetWord(disk[pointer], e)] := false;
        free := free + 1;
        e := e - 1;
      }
    }

    /** eliminarNodos(file, 0, 0) in delete mode: frees the blocks of file i from the last one back. */
    method DeleteNodes(i: nat, ghost count: map<nat, nat>)
      requires StoreOk(StoreNow(), count) && CountsOk(StoreNow(), count) && i in count && files[i].size < MAX_SIZE
      modifies files, used, `free
      ensures StoreNow() == Released(old(StoreNow()), i)
    {
      hide Deleting, StoreOk, CountsOk;
      ghost var st := StoreNow();
      StoreLengths(st, count);
      var size := files[i].size;
      var p: int, d: int := PointerIndex(size), EntryIndex(size);
      if size % (BLOCK * PTRS) == 0 {
        p, d := p - 1, PTRS - 1;
      } else if size % BLOCK == 0 {
        d := d - 1;
      }
      LastBlock(size);
      StartDeleting(st, i, p, p * PTRS + d);
      while d >= 0 && p >= 0
        invariant -1 <= p && (p >= 0 ==> 0 <= d < PTRS) && (p < 0 ==> d == PTRS - 1)
        invariant p * PTRS + d < Blocks(size) && (p >= 0 ==> size > 0)
        invariant Deleting(st, StoreNow(), i, p, p * PTRS + d)
        decreases p
      {
        OneDeleted(st, StoreNow(), count, i, p, d);
        var pointer := files[i].index[p];
        DeleteData(i, p, pointer, d, st, count);
        PointerDeleted(st, StoreNow(), count, i, p);
        used[pointer] := false;
        files[i] := files[i].(index := files[i].index[p := 0]);
        p, d := p - 1, PTRS - 1;
      }
      AllDeleted(st, StoreNow(), i);
    }

    /** o_rmdir2: an entry without children is marked deleted. */
    method RemoveEntry(path: string) returns (r: int)
      requires Absolute(path) && Resolve(dir[..], path) != 0
      modifies dir
      ensures var n := Resolve(old(dir[..]), path);
        if n == -1 || HasChildren(old(dir[..]), n) then r == -1 && dir[..] == old(dir[..])
        else r == 0 && 1 <= n <= dir.Length && dir[..] == old(dir[..])[n - 1 := Deleted(old(dir[..])[n - 1])]
      ensures dir[..] == TreeServe(old(dir[..]), RemoveOne(path))
    {
      var n := Find(path);
      ResolveIsLookup(dir[..], path);
      LookupRange(dir[..], Components(path));
      if n == -1 {
        return -1;
      }
      var i := 0;
      while i < dir.Length
        invariant 0 <= i <= dir.Length
        invariant forall j :: 0 <= j < i ==> !IsLiveChild(dir[j], n)
      {
        if IsLiveChild(dir[i], n) {
          assert IsLiveChild(dir[..][i], n);
          return -1;
        }
        i := i + 1;
      }
      dir[n - 1] := Deleted(dir[n - 1]);
      r := 0;
    }

    /** o_unlink, of a file */
    method Unlink(path: string) returns (r: int)
      requires FsOk(Now()) && IsFile(Now(), path)
      modifies dir, files, used, `free
      ensures (Now(), r) == UnlinkFile(old(Now()), path)
    {
      hide SiblingsDiffer, ParentsLive, Rooted, NamesClean;
      var n := Find(path);
      CountsAlwaysOk(Now());
      DeleteNodes(n - 1, Count(Now()));
      r := RemoveEntry(path);
    }
  }
}
