/** The directory half of the SAC node table: entries with a name, a state and the number of their
    parent entry (Sac-Server/estructuras.h, struct sac_file_t). Entry i of the table has number i + 1;
    number 0 is the root. */
module SacTree {
  import opened SacPaths

  /** enum estado_archivo */
  datatype EntryState = DELETED | FILE | DIRECTORY

  datatype Entry = Entry(state: EntryState, name: string, parent: int)

  type Table = seq<Entry>

  /** TAMANIO_TABLA_DE_NODOS, GFILEBYTABLE */
  const NODES: nat := 1024

  predicate Live(t: Table, n: int) {
    1 <= n <= |t| && t[n - 1].state != DELETED
  }

  predicate IsDirectory(t: Table, n: int) {
    n == 0 || (1 <= n <= |t| && t[n - 1].state == DIRECTORY)
  }

  /** What the search loop of dameNodoDe stops at. */
  predicate IsChild(e: Entry, parent: int, name: string) {
    e.parent == parent && e.name == name && e.state != DELETED
  }

  /** The first child of that name from entry i on; the table size when there is none. */
  function FindChild(t: Table, parent: int, name: string, i: nat): (k: nat)
    requires i <= |t|
    ensures i <= k <= |t| && (k < |t| ==> IsChild(t[k], parent, name))
    ensures forall j :: i <= j < k ==> !IsChild(t[j], parent, name)
    decreases |t| - i
  {
    if i == |t| || IsChild(t[i], parent, name) then i else FindChild(t, parent, name, i + 1)
  }

  /** dameNodoDe: the number of the entry with this path, or -1. The recursion ends because the super
      path is shorter. */
  function Resolve(t: Table, path: string): int
    requires Absolute(path)
    decreases |path|
  {
    if path == "/" then 0
    else
      var k := FindChild(t, Resolve(t, SuperPart(path)), NamePart(path), 0);
      if k == |t| then -1 else k + 1
  }

  /** The entry reached from the root through these names, or -1. */
  function Lookup(t: Table, c: Path): int {
    if c == [] then 0
    else
      var k := FindChild(t, Lookup(t, c[..|c| - 1]), c[|c| - 1], 0);
      if k == |t| then -1 else k + 1
  }

  lemma {:induction false} ResolveIsLookup(t: Table, path: string)
    requires Absolute(path)
    ensures Resolve(t, path) == Lookup(t, Components(path))
    decreases |path|
  {
    if path != "/" {
      ResolveIsLookup(t, SuperPart(path));
      assert Components(path)[..|Components(path)| - 1] == Components(SuperPart(path));
    }
  }

  // ================= the tree invariant =================

  /** c are the names met going from the root down to live entry n. */
  ghost predicate IsPathOf(t: Table, n: int, c: Path)
    decreases |c|
  {
    if c == [] then n == 0
    else Live(t, n) && t[n - 1].name == c[|c| - 1] && IsPathOf(t, t[n - 1].parent, c[..|c| - 1])
  }

  ghost predicate SiblingsDiffer(t: Table) {
    forall i, j :: 0 <= i < j < |t| && t[i].state != DELETED && t[j].state != DELETED ==>
      t[i].parent != t[j].parent || t[i].name != t[j].name
  }

  /** Every live entry's parent is the root or a live directory. */
  ghost predicate ParentsLive(t: Table) {
    forall i :: 0 <= i < |t| && t[i].state != DELETED ==> IsDirectory(t, t[i].parent)
  }

  /** Parent links reach the root, so there are no cycles. */
  ghost predicate Rooted(t: Table) {
    forall n :: Live(t, n) ==> HasPath(t, n)
  }

  ghost predicate HasPath(t: Table, n: int) {
    exists c :: IsPathOf(t, n, c)
  }

  ghost predicate NamesClean(t: Table) {
    forall i :: 0 <= i < |t| && t[i].state != DELETED ==> CleanName(t[i].name)
  }

  ghost predicate TreeOk(t: Table) {
    |t| == NODES && SiblingsDiffer(t) && ParentsLive(t) && Rooted(t) && NamesClean(t)
  }

  lemma {:induction false} PathIsUnique(t: Table, n: int, c: Path, d: Path)
    requires IsPathOf(t, n, c) && IsPathOf(t, n, d)
    ensures c == d
    decreases |c|
  {
    if c != [] && d != [] {
      PathIsUnique(t, t[n - 1].parent, c[..|c| - 1], d[..|d| - 1]);
      assert c == c[..|c| - 1] + [c[|c| - 1]] && d == d[..|d| - 1] + [d[|d| - 1]];
    }
  }

  lemma NoOrphans(t: Table, name: string)
    requires ParentsLive(t)
    ensures FindChild(t, -1, name, 0) == |t|
  {
  }

  lemma {:induction false} PathLooksUp(t: Table, n: int, c: Path)
    requires SiblingsDiffer(t) && IsPathOf(t, n, c)
    ensures Lookup(t, c) == n
    decreases |c|
  {
    if c != [] {
      PathLooksUp(t, t[n - 1].parent, c[..|c| - 1]);
      assert IsChild(t[n - 1], Lookup(t, c[..|c| - 1]), c[|c| - 1]);
    }
  }

  lemma {:induction false} LookupHasPath(t: Table, c: Path)
    requires ParentsLive(t) && Lookup(t, c) >= 0
    ensures IsPathOf(t, Lookup(t, c), c)
    decreases |c|
  {
    if c != [] {
      if Lookup(t, c[..|c| - 1]) < 0 {
        LookupRange(t, c[..|c| - 1]);
        NoOrphans(t, c[|c| - 1]);
      }
      LookupHasPath(t, c[..|c| - 1]);
    }
  }

  /** In a tree, names resolve to an entry exactly when they are its path. */
  lemma LookupIsPath(t: Table, n: int, c: Path)
    requires SiblingsDiffer(t) && ParentsLive(t)
    ensures n >= 0 && Lookup(t, c) == n <==> IsPathOf(t, n, c)
  {
    if IsPathOf(t, n, c) {
      PathLooksUp(t, n, c);
    }
    if n >= 0 && Lookup(t, c) == n {
      LookupHasPath(t, c);
    }
  }

  lemma LookupRange(t: Table, c: Path)
    ensures -1 <= Lookup(t, c) <= |t| && (Lookup(t, c) > 0 ==> Live(t, Lookup(t, c)))
  {
  }

  /** The path of a live entry, or of the root. */
  ghost function PathOf(t: Table, n: int): Path
    requires HasPath(t, n)
    ensures IsPathOf(t, n, PathOf(t, n))
  {
    var c :| IsPathOf(t, n, c);
    c
  }

  lemma {:induction false} PathIsClean(t: Table, n: int, c: Path)
    requires NamesClean(t) && IsPathOf(t, n, c)
    ensures CleanPath(c)
    decreases |c|
  {
    if c != [] {
      PathIsClean(t, t[n - 1].parent, c[..|c| - 1]);
      assert c == c[..|c| - 1] + [c[|c| - 1]];
    }
  }

  /** Path round trip: a live entry's printed path resolves to that entry, with or without a trailing
      slash. */
  lemma PrintedResolves(t: Table, n: int)
    requires TreeOk(t) && Live(t, n)
    ensures HasPath(t, n)
    ensures var s := Printed(PathOf(t, n));
      Absolute(s) && Absolute(s + "/") && Resolve(t, s) == n && Resolve(t, s + "/") == n
  {
    var c := PathOf(t, n);
    PathIsClean(t, n, c);
    ComponentsOfPrinted(c);
    LookupIsPath(t, n, c);
    ResolveIsLookup(t, Printed(c));
    ResolveIsLookup(t, Printed(c) + "/");
  }

  ghost predicate IsTaken(t: Table, c: Path) {
    exists n :: IsPathOf(t, n, c)
  }

  /** Resolution fails exactly when no live entry has the path. */
  lemma ResolveFails(t: Table, path: string)
    requires TreeOk(t) && Absolute(path)
    ensures Resolve(t, path) == -1 <==> !IsTaken(t, Components(path))
  {
    ResolveIsLookup(t, path);
    LookupRange(t, Components(path));
    TakenLooksUp(t, Components(path));
  }

  lemma TakenLooksUp(t: Table, c: Path)
    requires SiblingsDiffer(t) && ParentsLive(t)
    ensures Lookup(t, c) >= 0 <==> IsTaken(t, c)
  {
    if Lookup(t, c) >= 0 {
      LookupHasPath(t, c);
    }
    if n :| IsPathOf(t, n, c) {
      PathLooksUp(t, n, c);
      PathNumber(t, n, c);
    }
  }

  lemma PathNumber(t: Table, n: int, c: Path)
    requires IsPathOf(t, n, c)
    ensures 0 <= n <= |t|
  {
  }

  /** Different paths resolve to different entries. */
  lemma LookupInjective(t: Table, c: Path, d: Path)
    requires SiblingsDiffer(t) && ParentsLive(t) && Lookup(t, c) == Lookup(t, d) >= 0
    ensures c == d
  {
    LookupIsPath(t, Lookup(t, c), c);
    LookupIsPath(t, Lookup(t, c), d);
    PathIsUnique(t, Lookup(t, c), c, d);
  }
}
