/** Clients of the file server: what several of its operations give one after the other. */
module SacClient {
  import opened SacPaths
  import opened SacTree
  import opened SacTreeOps
  import opened SacDisk
  import opened SacGrowth
  import opened SacWrite
  import opened SacFs
  import opened SacRuns
  import opened SacServer

  /** The bytes of the file at this path. */
  ghost function BytesOf(fs: Fs, path: string): (bytes: seq<Byte>)
    requires IsFile(fs, path) && |fs.dir| == |fs.st.files|
    ensures |bytes| == fs.st.files[Resolve(fs.dir, path) - 1].size
  {
    Contents(fs.st, Resolve(fs.dir, path) - 1)
  }

  /** The disk has room for len more bytes of the file, and bitmap_free_blocks says no less. */
  ghost predicate RoomFor(fs: Fs, path: string, len: nat)
    requires FsOk(fs)
  {
    && MayAppend(fs, path, len)
    && FreeCounted(fs.st) && |FreeBlocks(fs.st)| >= NewBlocks(fs.st.files[Resolve(fs.dir, path) - 1].size, len)
  }

  /** fs' shows what fs shows, but for buf at the end of the file. */
  ghost predicate ShowsAppended(fs: Fs, fs': Fs, path: string, buf: seq<Byte>) {
    && FsOk(fs) && FsOk(fs') && IsFile(fs, path)
    && View(fs') == View(fs)[Components(path) := File(BytesOf(fs, path) + buf)]
  }

  /** A client that appends to a file and then reads it from a block boundary on: it reads the old contents
      from there, followed by what it wrote. fs is the state before. */
  method AppendThenRead(server: Server, path: string, buf: seq<Byte>, from: nat, ghost fs: Fs)
    returns (written: int, out: seq<Byte>)
    requires server.Now() == fs && FsOk(fs) && RoomFor(fs, path, |buf|)
    requires from % BLOCK == 0 && from <= |BytesOf(fs, path)| + |buf|
    modifies server.files, server.disk, server.used
    ensures written == |buf| && out == (BytesOf(fs, path) + buf)[from..]
    ensures ShowsAppended(fs, server.Now(), path, buf)
  {
    var n := server.Find(path);
    var off := server.files[n - 1].size;
    WholeAppend(fs, path, buf);
    ghost var fs' := WriteFile(fs, path, buf, off).0;
    hide *;
    written := server.Write(path, buf, off);
    out := ReadFrom(server, path, off + |buf|, from, fs');
  }

  /** A client that knows the length of a file reads the rest of it from a block boundary on. */
  method ReadFrom(server: Server, path: string, length: nat, from: nat, ghost fs: Fs) returns (out: seq<Byte>)
    requires server.Now() == fs && FsOk(fs) && IsFile(fs, path) && |BytesOf(fs, path)| == length
    requires from % BLOCK == 0 && from <= length
    ensures out == BytesOf(fs, path)[from..]
  {
    FileFits(fs, path);
    hide FsOk, Resolve, Contents;
    var r, bytes := server.Read(path, length - from, from);
    out := bytes;
  }

  lemma FileFits(fs: Fs, path: string)
    requires FsOk(fs) && IsFile(fs, path)
    ensures |BytesOf(fs, path)| < MAX_SIZE
  {
  }

  lemma WholeAppend(fs: Fs, path: string, buf: seq<Byte>)
    requires FsOk(fs) && RoomFor(fs, path, |buf|)
    ensures var i := Resolve(fs.dir, path) - 1;
      && MayWrite(fs, path, buf, fs.st.files[i].size)
      && var (fs', r) := WriteFile(fs, path, buf, fs.st.files[i].size);
      && r == |buf| && fs'.dir == fs.dir && i < |fs'.st.files| && FsOk(fs')
      && fs'.st.files[i].size == fs.st.files[i].size + |buf|
      && IsFile(fs', path) && BytesOf(fs', path) == BytesOf(fs, path) + buf && ShowsAppended(fs, fs', path, buf)
  {
    hide StoreOk, SiblingsDiffer, ParentsLive, Rooted, NamesClean, CanAppend, Resolve, WriteLoop, View, NewBlocks,
      Contents, Components, FreeBlocks, NodeAt;
    var i: nat := Resolve(fs.dir, path) - 1;
    var off := fs.st.files[i].size;
    AppendMayWrite(fs, path, buf);
    NewBlocksNeeded(off, |buf|);
    WriteOk(fs, path, buf, off);
    WriteAppends(fs.st, Count(fs), i, buf, off, off % BLOCK);
    FileInView(fs, path);
    assert buf[..|buf|] == buf;
  }

  /** A client that writes an empty file, reads it and deletes it. */
  method WriteReadDelete(server: Server, path: string, buf: seq<Byte>, ghost fs: Fs) returns (out: seq<Byte>)
    requires server.Now() == fs && FsOk(fs) && RoomFor(fs, path, |buf|) && BytesOf(fs, path) == []
    modifies server.dir, server.files, server.disk, server.used, server`free
    ensures out == buf && ShowsWithout(fs, server.Now(), path)
  {
    assert 0 % BLOCK == 0;
    hide *;
    var written: int;
    written, out := AppendThenRead(server, path, buf, 0, fs);
    ghost var fs1 := server.Now();
    AppendedFile(fs, fs1, path, buf);
    var r := server.Unlink(path);
    assert server.Now() == UnlinkFile(fs1, path).0;
  }

  ghost predicate ShowsWithout(fs: Fs, fs': Fs, path: string) {
    FsOk(fs) && FsOk(fs') && Absolute(path) && View(fs') == View(fs) - {Components(path)}
  }

  /** The file is there to be deleted. */
  lemma AppendedFile(fs: Fs, fs1: Fs, path: string, buf: seq<Byte>)
    requires ShowsAppended(fs, fs1, path, buf)
    ensures FsOk(fs1) && IsFile(fs1, path) && ShowsWithout(fs, UnlinkFile(fs1, path).0, path)
  {
    hide SiblingsDiffer, ParentsLive, Rooted, NamesClean, StoreOk, View, Components, Resolve, UnlinkFile, BytesOf;
    FileOfPicture(fs1, path);
    UnlinkOk(fs1, path);
    assert View(fs1) - {Components(path)} == View(fs) - {Components(path)};
  }

  /** The server starts on a formatted disk, and a client creates a file in the root, writes and reads it,
      and deletes it again: it reads what it wrote, and the file system is empty as before. */
  method FirstFile(table: array<Entry>, inodes: array<Inode>, blocks: array<Block>, bitmap: array<bool>, firstData: nat,
                   path: string, buf: seq<Byte>)
    returns (server: Server, out: seq<Byte>)
    requires var disk := Fs(table[..], Store(inodes[..], blocks[..], bitmap[..], 0, firstData));
      Formatted(disk) && |FreeBlocks(disk.st)| >= 2 + NewBlocks(0, |buf|)
    requires Splittable(path) && SuperPart(path) == "/" && CleanName(NamePart(path)) && |buf| < MAX_SIZE
    modifies table, inodes, blocks, bitmap
    ensures out == buf && FsOk(server.Now()) && View(server.Now()) == imap[[] := Dir]
  {
    server := new Server(table, inodes, blocks, bitmap, firstData);
    ghost var fs := server.Now();
    FormattedOk(fs);
    MoreBlocks(0, 0, |buf|);
    FirstCreate(fs, path, |buf|);
    EmptyAgain(Components(path));
    hide *;
    var r := server.Create(path);
    ghost var fs1 := server.Now();
    assert fs1 == CreateFile(fs, path).0;
    out := WriteReadDelete(server, path, buf, fs1);
  }

  /** The only file of a formatted disk. */
  lemma FirstCreate(fs: Fs, path: string, len: nat)
    requires Formatted(fs) && FsOk(fs) && FreeCounted(fs.st) && |FreeBlocks(fs.st)| >= 2 + NewBlocks(0, len)
    requires Splittable(path) && SuperPart(path) == "/" && CleanName(NamePart(path)) && len < MAX_SIZE
    ensures RoomForFile(fs, path)
    ensures var fs1 := CreateFile(fs, path).0;
      && FsOk(fs1) && RoomFor(fs1, path, len) && BytesOf(fs1, path) == []
      && View(fs1) == View(fs)[Components(path) := File([])]
  {
    FirstPlace(fs.dir, path);
    hide StoreOk, SiblingsDiffer, ParentsLive, Rooted, NamesClean, NewFile, View, NewBlocks, Place, FreeBlocks;
    CountsAlwaysOk(fs);
    StoreLengths(fs.st, Count(fs));
    NewFileOk(fs.st, Count(fs), 0);
    CreateOk(fs, path);
    CreateCounts(fs, path);
    EmptyFile(CreateFile(fs, path).0, path);
  }

  lemma EmptyAgain(c: Path)
    requires c != []
    ensures (imap[[] := Dir])[c := File([])] - {c} == imap[[] := Dir]
  {
  }

  lemma FirstPlace(t: Table, path: string)
    requires |t| == NODES && forall i :: 0 <= i < |t| ==> t[i].state == DELETED
    requires Splittable(path) && SuperPart(path) == "/"
    ensures Place(t, path) == Slot(0, 0)
  {
    hide SuperPart, NamePart;
    assert Resolve(t, "/") == 0;
    assert FirstFree(t, 0) == 0;
  }

  lemma EmptyFile(fs: Fs, path: string)
    requires FsOk(fs) && Absolute(path) && Components(path) in View(fs) && View(fs)[Components(path)] == File([])
    ensures IsFile(fs, path) && fs.st.files[Resolve(fs.dir, path) - 1].size == 0
  {
    hide StoreOk, SiblingsDiffer, ParentsLive, Rooted, NamesClean, View, Components, Resolve;
    FileOfPicture(fs, path);
    FileInView(fs, path);
  }

  lemma FileOfPicture(fs: Fs, path: string)
    requires FsOk(fs) && Absolute(path) && Components(path) in View(fs) && View(fs)[Components(path)].File?
    ensures IsFile(fs, path)
  {
    ResolveIsLookup(fs.dir, path);
  }
}
