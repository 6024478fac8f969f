/** What creating, deleting and renaming entries does to the tree of the node table
    (Sac-Server/operaciones.c). */
module SacTreeOps {
  import opened SacPaths
  import opened SacTree

  // ================= o_create and o_mkdir: a new entry =================

  function FirstFree(t: Table, i: nat): (k: nat)
    requires i <= |t|
    ensures i <= k <= |t| && (k < |t| ==> t[k].state == DELETED)
    ensures forall j :: i <= j < k ==> t[j].state != DELETED
    decreases |t| - i
  {
    if i == |t| || t[i].state == DELETED then i else FirstFree(t, i + 1)
  }

  datatype Placement = Exists | NoParent | NoSlot | Slot(index: nat, parent: int)

  /** Where o_create and o_mkdir put a new entry, or why they do not. */
  function Place(t: Table, path: string): (place: Placement)
    requires Absolute(path)
    ensures place.Slot? ==> place.index < |t| && t[place.index].state == DELETED && place.parent >= 0
  {
    if Resolve(t, path) != -1 then Exists
    else
      var parent := Resolve(t, SuperPart(path));
      if parent < 0 then NoParent
      else
        var k := FirstFree(t, 0);
        if k == |t| then NoSlot else Slot(k, parent)
  }

  function WithEntry(t: Table, k: nat, e: Entry): Table
    requires k < |t|
  {
    t[k := e]
  }

  /** e may become a live entry in the free slot k: its parent is a directory that has no such child. */
  ghost predicate MayAdd(t: Table, k: nat, e: Entry, c: Path) {
    && k < |t| && t[k].state == DELETED && e.state != DELETED && CleanName(e.name)
    && c != [] && c[|c| - 1] == e.name
    && IsPathOf(t, e.parent, c[..|c| - 1]) && IsDirectory(t, e.parent)
    && Lookup(t, c) == -1
  }

  /** A path other than the new one leads where it led; below the new entry there is nothing. */
  lemma {:induction false} AddedLookup(t: Table, k: nat, e: Entry, c: Path, q: Path)
    requires SiblingsDiffer(t) && ParentsLive(t) && MayAdd(t, k, e, c)
    ensures Lookup(WithEntry(t, k, e), q) == if q == c then k + 1 else Lookup(t, q)
    decreases |q|
  {
    hide IsPathOf, SiblingsDiffer, ParentsLive, FindChild, Lookup;
    if q != [] {
      var init, name := q[..|q| - 1], q[|q| - 1];
      LookupStep(t, q);
      LookupStep(WithEntry(t, k, e), q);
      AddedLookup(t, k, e, c, init);
      assert q == c <==> init == c[..|c| - 1] && name == e.name by {
        assert q == init + [name] && c == c[..|c| - 1] + [e.name];
      }
      PathLooksUp(t, e.parent, c[..|c| - 1]);
      if init == c {
        NothingBelow(t, k, e, name);
        NoOrphans(t, name);
      } else {
        var p := Lookup(t, init);
        if p == e.parent {
          PathNumber(t, e.parent, c[..|c| - 1]);
          LookupInjective(t, init, c[..|c| - 1]);
        }
        ChildAdded(t, k, e, p, name);
      }
    } else {
      LookupRoot(t);
      LookupRoot(WithEntry(t, k, e));
    }
  }

  lemma LookupRoot(t: Table)
    ensures Lookup(t, []) == 0
  {
  }

  lemma LookupStep(t: Table, q: Path)
    requires q != []
    ensures var k := FindChild(t, Lookup(t, q[..|q| - 1]), q[|q| - 1], 0);
      Lookup(t, q) == if k == |t| then -1 else k + 1
  {
  }

  /** A reused slot never inherits children. */
  lemma NothingBelow(t: Table, k: nat, e: Entry, name: string)
    requires ParentsLive(t) && k < |t| && t[k].state == DELETED && IsDirectory(t, e.parent)
    ensures FindChild(WithEntry(t, k, e), k + 1, name, 0) == |t|
  {
  }

  lemma ChildAdded(t: Table, k: nat, e: Entry, p: int, name: string)
    requires k < |t| && t[k].state == DELETED && e.state != DELETED
    ensures (e.parent, e.name) != (p, name) ==> FindChild(WithEntry(t, k, e), p, name, 0) == FindChild(t, p, name, 0)
    ensures (e.parent, e.name) == (p, name) && FindChild(t, p, name, 0) == |t| ==>
      FindChild(WithEntry(t, k, e), p, name, 0) == k
  {
    var t' := WithEntry(t, k, e);
    var f, f' := FindChild(t, p, name, 0), FindChild(t', p, name, 0);
    assert forall j :: 0 <= j < |t| && j != k ==> t'[j] == t[j];
    if (e.parent, e.name) != (p, name) {
      assert !IsChild(t'[k], p, name) && !IsChild(t[k], p, name);
    } else if f == |t| {
      assert IsChild(t'[k], p, name);
    }
  }

  lemma {:induction false} AddedPath(t: Table, k: nat, e: Entry, n: int, c: Path)
    requires k < |t| && t[k].state == DELETED && IsPathOf(t, n, c)
    ensures IsPathOf(WithEntry(t, k, e), n, c)
    decreases |c|
  {
    if c != [] {
      AddedPath(t, k, e, t[n - 1].parent, c[..|c| - 1]);
    }
  }

  lemma AddedTreeOk(t: Table, k: nat, e: Entry, c: Path)
    requires TreeOk(t) && MayAdd(t, k, e, c)
    ensures TreeOk(WithEntry(t, k, e)) && IsPathOf(WithEntry(t, k, e), k + 1, c)
  {
    hide Rooted, SiblingsDiffer, ParentsLive, Lookup;
    AddedRooted(t, k, e, c);
    AddedSiblings(t, k, e, c);
    AddedParents(t, k, e);
  }

  lemma AddedParents(t: Table, k: nat, e: Entry)
    requires ParentsLive(t) && k < |t| && t[k].state == DELETED && IsDirectory(t, e.parent)
    ensures ParentsLive(WithEntry(t, k, e))
  {
  }

  lemma AddedRooted(t: Table, k: nat, e: Entry, c: Path)
    requires Rooted(t) && MayAdd(t, k, e, c)
    ensures Rooted(WithEntry(t, k, e)) && IsPathOf(WithEntry(t, k, e), k + 1, c)
  {
    hide Lookup;
    var t' := WithEntry(t, k, e);
    AddedPath(t, k, e, e.parent, c[..|c| - 1]);
    assert IsPathOf(t', k + 1, c);
    forall n | Live(t', n) ensures HasPath(t', n) {
      if n != k + 1 {
        assert Live(t, n);
        AddedPath(t, k, e, n, PathOf(t, n));
      }
    }
  }

  lemma AddedSiblings(t: Table, k: nat, e: Entry, c: Path)
    requires SiblingsDiffer(t) && MayAdd(t, k, e, c)
    ensures SiblingsDiffer(WithEntry(t, k, e))
  {
    PathLooksUp(t, e.parent, c[..|c| - 1]);
    assert forall i :: 0 <= i < |t| ==> !IsChild(t[i], e.parent, e.name);
  }

  /** Where Place finds a slot, an entry of the path's name may be added there. */
  lemma PlacedMayAdd(t: Table, path: string, state: EntryState)
    requires TreeOk(t) && Absolute(path) && Place(t, path).Slot? && state != DELETED
    requires CleanName(NamePart(path)) && IsDirectory(t, Place(t, path).parent)
    ensures var p := Place(t, path);
      MayAdd(t, p.index, Entry(state, NamePart(path), p.parent), Components(path))
  {
    var c := Components(path);
    ResolveIsLookup(t, path);
    ResolveIsLookup(t, SuperPart(path));
    assert c[..|c| - 1] == Components(SuperPart(path));
    LookupHasPath(t, Components(SuperPart(path)));
  }

  // ================= deletion of whole subtrees =================

  function Deleted(e: Entry): Entry {
    e.(state := DELETED)
  }

  /** t with the entries numbered in dead marked deleted; names and parents stay. */
  ghost function Without(t: Table, dead: set<int>): Table {
    seq(|t|, i requires 0 <= i < |t| => if i + 1 in dead then Deleted(t[i]) else t[i])
  }

  /** Names and parents stay, and so do the states of entries that are not in dead. */
  lemma WithoutFields(t: Table, dead: set<int>)
    ensures |Without(t, dead)| == |t|
    ensures forall i :: 0 <= i < |t| ==>
      && Without(t, dead)[i].name == t[i].name && Without(t, dead)[i].parent == t[i].parent
      && Without(t, dead)[i].state == if i + 1 in dead then DELETED else t[i].state
  {
  }

  /** n is at path c or below it. */
  ghost predicate AtOrUnder(t: Table, n: int, c: Path) {
    exists d :: IsPathOf(t, n, d) && c <= d
  }

  /** The live entries at path c and below it. */
  ghost function Subtree(t: Table, c: Path): set<int> {
    set n | 1 <= n <= |t| && AtOrUnder(t, n, c)
  }

  /** The live strict descendants of entry n, which has path c. */
  ghost function Below(t: Table, c: Path): set<int> {
    set n | 1 <= n <= |t| && AtOrUnder(t, n, c) && !IsPathOf(t, n, c)
  }

  /** dead takes whole subtrees: with an entry it contains all entries below it. */
  ghost predicate DownClosed(t: Table, dead: set<int>) {
    forall n :: Live(t, n) && t[n - 1].parent in dead ==> n in dead
  }

  lemma {:induction false} RemainingPath(t: Table, dead: set<int>, n: int, c: Path)
    requires DownClosed(t, dead) && 0 !in dead
    ensures IsPathOf(Without(t, dead), n, c) <==> IsPathOf(t, n, c) && n !in dead
    decreases |c|
  {
    if c != [] && 1 <= n <= |t| {
      RemainingPath(t, dead, t[n - 1].parent, c[..|c| - 1]);
    }
  }

  lemma WithoutTreeOk(t: Table, dead: set<int>)
    requires TreeOk(t) && DownClosed(t, dead) && 0 !in dead
    ensures TreeOk(Without(t, dead))
  {
    hide Rooted, SiblingsDiffer, ParentsLive;
    WithoutRooted(t, dead);
    WithoutParents(t, dead);
    WithoutSiblings(t, dead);
  }

  lemma WithoutSiblings(t: Table, dead: set<int>)
    requires SiblingsDiffer(t)
    ensures SiblingsDiffer(Without(t, dead))
  {
  }

  lemma WithoutRooted(t: Table, dead: set<int>)
    requires Rooted(t) && DownClosed(t, dead) && 0 !in dead
    ensures Rooted(Without(t, dead))
  {
    forall n | Live(Without(t, dead), n) ensures HasPath(Without(t, dead), n) {
      assert Live(t, n);
      RemainingPath(t, dead, n, PathOf(t, n));
    }
  }

  lemma WithoutParents(t: Table, dead: set<int>)
    requires ParentsLive(t) && DownClosed(t, dead)
    ensures ParentsLive(Without(t, dead))
  {
    var t' := Without(t, dead);
    forall i | 0 <= i < |t| && t'[i].state != DELETED ensures IsDirectory(t', t'[i].parent) {
      assert Live(t, i + 1);
    }
  }

  lemma SubtreeClosed(t: Table, c: Path)
    requires Rooted(t)
    ensures DownClosed(t, Subtree(t, c)) && DownClosed(t, Below(t, c))
  {
    forall n | Live(t, n) && 1 <= t[n - 1].parent <= |t| && AtOrUnder(t, t[n - 1].parent, c)
      ensures AtOrUnder(t, n, c) && !IsPathOf(t, n, c)
    {
      var d :| IsPathOf(t, t[n - 1].parent, d) && c <= d;
      var e := PathOf(t, n);
      PathIsUnique(t, t[n - 1].parent, d, e[..|e| - 1]);
      assert c <= e;
      if IsPathOf(t, n, c) {
        PathIsUnique(t, n, c, e);
        assert false;
      }
    }
  }

  /** After the subtree at c is gone, its paths fail and all others lead where they led. */
  lemma RemovedLookup(t: Table, c: Path, q: Path)
    requires TreeOk(t) && c != []
    ensures Lookup(Without(t, Subtree(t, c)), q) == if c <= q then -1 else Lookup(t, q)
  {
    var dead := Subtree(t, c);
    var t' := Without(t, dead);
    SubtreeClosed(t, c);
    WithoutTreeOk(t, dead);
    LookupRange(t, q);
    LookupRange(t', q);
    if Lookup(t', q) >= 0 {
      LookupHasPath(t', q);
      RemainingPath(t, dead, Lookup(t', q), q);
      PathLooksUp(t, Lookup(t', q), q);
      NotUnder(t, c, q);
    } else if Lookup(t, q) >= 0 && !(c <= q) {
      var n := Lookup(t, q);
      LookupHasPath(t, q);
      if n in dead {
        var d :| IsPathOf(t, n, d) && c <= d;
        PathIsUnique(t, n, d, q);
      }
      RemainingPath(t, dead, n, q);
      PathLooksUp(t', n, q);
    }
  }

  lemma NotUnder(t: Table, c: Path, q: Path)
    requires c != [] && Lookup(t, q) >= 0 && IsPathOf(t, Lookup(t, q), q) && Lookup(t, q) !in Subtree(t, c)
      && SiblingsDiffer(t)
    ensures !(c <= q)
  {
    if c <= q {
      assert AtOrUnder(t, Lookup(t, q), c);
      LookupRange(t, q);
    }
  }

  // ================= o_rmdir2: deleting an entry without children =================

  predicate IsLiveChild(e: Entry, n: int) {
    e.state != DELETED && e.parent == n
  }

  predicate HasChildren(t: Table, n: int) {
    exists i :: 0 <= i < |t| && IsLiveChild(t[i], n)
  }

  /** On the way down from path c to a longer path there is a child of c's entry. */
  lemma {:induction false} ChildOnTheWay(t: Table, n: int, c: Path, m: int, d: Path) returns (i: nat)
    requires SiblingsDiffer(t) && IsPathOf(t, n, c) && IsPathOf(t, m, d) && c < d
    ensures i < |t| && IsLiveChild(t[i], n) && IsPathOf(t, i + 1, c + [t[i].name]) && c + [t[i].name] <= d
    decreases |d|
  {
    var init := d[..|d| - 1];
    assert d == init + [d[|d| - 1]];
    if |d| == |c| + 1 {
      assert init == c;
      PathLooksUp(t, n, c);
      PathLooksUp(t, t[m - 1].parent, c);
      i := m - 1;
    } else {
      assert c < init;
      i := ChildOnTheWay(t, n, c, t[m - 1].parent, init);
    }
  }

  lemma PrefixCases(c: Path, d: Path)
    requires c <= d
    ensures c == d || c < d
  {
    assert |c| == |d| ==> c == d[..|c|] == d;
  }

  /** Removing just a childless entry removes its whole subtree. */
  lemma ChildlessSubtree(t: Table, n: int, c: Path)
    requires TreeOk(t) && IsPathOf(t, n, c) && c != [] && !HasChildren(t, n)
    ensures Subtree(t, c) == {n} && t[n - 1 := Deleted(t[n - 1])] == Without(t, Subtree(t, c))
  {
    assert AtOrUnder(t, n, c);
    forall m | m in Subtree(t, c) ensures m == n {
      var d :| IsPathOf(t, m, d) && c <= d;
      PrefixCases(c, d);
      if c < d {
        var i := ChildOnTheWay(t, n, c, m, d);
        assert false;
      } else {
        PathLooksUp(t, m, c);
        PathLooksUp(t, n, c);
      }
    }
  }

  lemma FilesAreChildless(t: Table, n: int)
    requires ParentsLive(t) && 1 <= n <= |t| && t[n - 1].state == FILE
    ensures !HasChildren(t, n)
  {
  }

  // ================= eliminarRecursivamente: deleting everything below an entry =================

  /** What is gone once the first i entries of the table were looked at. */
  ghost function Gone(t: Table, n: int, c: Path, i: nat): set<int>
    requires i <= |t|
  {
    set m | 1 <= m <= |t| && UnderSome(t, n, c, i, m)
  }

  ghost predicate UnderSome(t: Table, n: int, c: Path, i: nat, m: int)
    requires i <= |t|
  {
    exists j :: 0 <= j < i && IsLiveChild(t[j], n) && AtOrUnder(t, m, c + [t[j].name])
  }

  lemma ChildPath(t: Table, n: int, c: Path, i: nat)
    requires IsPathOf(t, n, c) && i < |t| && IsLiveChild(t[i], n)
    ensures IsPathOf(t, i + 1, c + [t[i].name])
  {
    assert (c + [t[i].name])[..|c|] == c;
  }

  /** The subtrees of two children do not meet. */
  lemma ChildrenApart(t: Table, n: int, c: Path, i: nat, m: int)
    requires SiblingsDiffer(t) && i < |t| && IsLiveChild(t[i], n) && AtOrUnder(t, m, c + [t[i].name])
    ensures !UnderSome(t, n, c, i, m)
  {
    var d :| IsPathOf(t, m, d) && c + [t[i].name] <= d;
    forall j | 0 <= j < i && IsLiveChild(t[j], n) ensures !AtOrUnder(t, m, c + [t[j].name]) {
      if AtOrUnder(t, m, c + [t[j].name]) {
        var e :| IsPathOf(t, m, e) && c + [t[j].name] <= e;
        assert d[|c|] == t[i].name && e[|c|] == t[j].name;
        PathIsUnique(t, m, d, e);
        assert false;
      }
    }
  }

  lemma GoneClosed(t: Table, n: int, c: Path, i: nat)
    requires Rooted(t) && i <= |t|
    ensures DownClosed(t, Gone(t, n, c, i)) && 0 !in Gone(t, n, c, i)
  {
    forall m | Live(t, m) && t[m - 1].parent in Gone(t, n, c, i) ensures m in Gone(t, n, c, i) {
      var j :| 0 <= j < i && IsLiveChild(t[j], n) && AtOrUnder(t, t[m - 1].parent, c + [t[j].name]);
      SubtreeClosed(t, c + [t[j].name]);
      assert t[m - 1].parent in Subtree(t, c + [t[j].name]);
      assert m in Subtree(t, c + [t[j].name]);
    }
  }

  lemma GoneStep(t: Table, n: int, c: Path, i: nat)
    requires i < |t|
    ensures Gone(t, n, c, i + 1) == Gone(t, n, c, i) + if IsLiveChild(t[i], n) then Subtree(t, c + [t[i].name]) else {}
  {
    forall m | 1 <= m <= |t|
      ensures UnderSome(t, n, c, i + 1, m)
        <==> UnderSome(t, n, c, i, m) || (IsLiveChild(t[i], n) && AtOrUnder(t, m, c + [t[i].name]))
    {
    }
  }

  lemma GoneAll(t: Table, n: int, c: Path)
    requires TreeOk(t) && IsPathOf(t, n, c)
    ensures Gone(t, n, c, |t|) == Below(t, c)
  {
    forall m | 1 <= m <= |t| ensures UnderSome(t, n, c, |t|, m) <==> AtOrUnder(t, m, c) && !IsPathOf(t, m, c) {
      if UnderSome(t, n, c, |t|, m) {
        UnderSomeIsBelow(t, n, c, m);
      }
      if AtOrUnder(t, m, c) && !IsPathOf(t, m, c) {
        BelowIsUnderSome(t, n, c, m);
      }
    }
  }

  lemma UnderSomeIsBelow(t: Table, n: int, c: Path, m: int)
    requires UnderSome(t, n, c, |t|, m)
    ensures AtOrUnder(t, m, c) && !IsPathOf(t, m, c)
  {
    var j :| 0 <= j < |t| && IsLiveChild(t[j], n) && AtOrUnder(t, m, c + [t[j].name]);
    var d :| IsPathOf(t, m, d) && c + [t[j].name] <= d;
    assert c <= d && c != d;
    if IsPathOf(t, m, c) {
      PathIsUnique(t, m, c, d);
      assert false;
    }
  }

  lemma BelowIsUnderSome(t: Table, n: int, c: Path, m: int)
    requires SiblingsDiffer(t) && IsPathOf(t, n, c) && AtOrUnder(t, m, c) && !IsPathOf(t, m, c)
    ensures UnderSome(t, n, c, |t|, m)
  {
    var d :| IsPathOf(t, m, d) && c <= d;
    PrefixCases(c, d);
    var i := ChildOnTheWay(t, n, c, m, d);
    assert AtOrUnder(t, m, c + [t[i].name]);
  }

  /** The entry in slot i is seen as it was before the loop. */
  lemma NotYetGone(t: Table, n: int, c: Path, i: nat)
    requires TreeOk(t) && IsPathOf(t, n, c) && i < |t|
    ensures IsLiveChild(Without(t, Gone(t, n, c, i))[i], n) <==> IsLiveChild(t[i], n)
    ensures IsLiveChild(t[i], n) ==> i + 1 !in Gone(t, n, c, i)
  {
    if IsLiveChild(t[i], n) {
      ChildPath(t, n, c, i);
      assert AtOrUnder(t, i + 1, c + [t[i].name]);
      ChildrenApart(t, n, c, i, i + 1);
    }
  }

  /** A child's subtree is intact when the loop reaches the child. */
  lemma SubtreeIntact(t: Table, n: int, c: Path, i: nat)
    requires TreeOk(t) && IsPathOf(t, n, c) && i < |t| && IsLiveChild(t[i], n)
    ensures var t1, e := Without(t, Gone(t, n, c, i)), c + [t[i].name];
      TreeOk(t1) && IsPathOf(t1, i + 1, e) && Subtree(t1, e) == Subtree(t, e) && Below(t1, e) == Below(t, e)
  {
    var gone := Gone(t, n, c, i);
    var t1, e := Without(t, gone), c + [t[i].name];
    GoneClosed(t, n, c, i);
    WithoutTreeOk(t, gone);
    NotYetGone(t, n, c, i);
    ChildPath(t, n, c, i);
    RemainingPath(t, gone, i + 1, e);
    forall m | 1 <= m <= |t| ensures AtOrUnder(t1, m, e) <==> AtOrUnder(t, m, e) {
      if AtOrUnder(t, m, e) {
        ChildrenApart(t, n, c, i, m);
        var d :| IsPathOf(t, m, d) && e <= d;
        RemainingPath(t, gone, m, d);
      }
      if AtOrUnder(t1, m, e) {
        var d :| IsPathOf(t1, m, d) && e <= d;
        RemainingPath(t, gone, m, d);
      }
    }
    forall m | AtOrUnder(t1, m, e) ensures IsPathOf(t1, m, e) <==> IsPathOf(t, m, e) {
      RemainingPath(t, gone, m, e);
      if IsPathOf(t, m, e) {
        PathLooksUp(t, m, e);
        PathLooksUp(t, i + 1, e);
      }
    }
  }

  lemma WithoutTwice(t: Table, a: set<int>, b: set<int>)
    ensures Without(Without(t, a), b) == Without(t, a + b)
  {
  }

  /** An entry and what is below it make up its subtree. */
  lemma BelowAndItself(t: Table, n: int, c: Path)
    requires SiblingsDiffer(t) && IsPathOf(t, n, c) && c != []
    ensures Subtree(t, c) == Below(t, c) + {n} && n !in Below(t, c)
    ensures Without(t, Subtree(t, c)) == Without(t, Below(t, c))[n - 1 := Deleted(Without(t, Below(t, c))[n - 1])]
  {
    assert AtOrUnder(t, n, c);
    forall m | IsPathOf(t, m, c) ensures m == n {
      PathLooksUp(t, m, c);
      PathLooksUp(t, n, c);
    }
  }

  /** The child's descendants are fewer than those of the entry. */
  lemma FewerBelow(t: Table, n: int, c: Path, i: nat)
    requires TreeOk(t) && IsPathOf(t, n, c) && i < |t| && IsLiveChild(t[i], n)
    ensures Below(t, c + [t[i].name]) < Below(t, c)
  {
    var e := c + [t[i].name];
    ChildPath(t, n, c, i);
    BelowAndItself(t, i + 1, e);
    assert AtOrUnder(t, i + 1, c);
    forall m | m in Subtree(t, e) ensures m in Below(t, c) {
      var d :| IsPathOf(t, m, d) && e <= d;
      assert c <= d;
      if IsPathOf(t, m, c) {
        PathIsUnique(t, m, c, d);
        assert false;
      }
    }
    assert i + 1 in Subtree(t, e);
  }

  /** What the loop does at a child: its subtree, still whole, is the child and what is below it, of which
      there is less than below n; with it gone, the next entry may be looked at. */
  lemma ChildGoes(t: Table, n: int, c: Path, i: nat)
    requires TreeOk(t) && IsPathOf(t, n, c) && i < |t| && IsLiveChild(t[i], n)
    ensures var t1, e := Without(t, Gone(t, n, c, i)), c + [t[i].name];
      && t1[i] == t[i] && TreeOk(t1) && IsPathOf(t1, i + 1, e)
      && Below(t1, e) < Below(t, c)
      && (t[i].state == FILE ==> Without(t, Gone(t, n, c, i + 1)) == t1[i := Deleted(t1[i])])
      && var w := Without(t1, Below(t1, e)); Without(t, Gone(t, n, c, i + 1)) == w[i := Deleted(w[i])]
  {
    var t1, e := Without(t, Gone(t, n, c, i)), c + [t[i].name];
    NotYetGone(t, n, c, i);
    assert t1[i] == t[i];
    hide TreeOk, IsPathOf, Gone, Subtree, Below;
    SubtreeIntact(t, n, c, i);
    BelowAndItself(t1, i + 1, e);
    FewerBelow(t, n, c, i);
    GoneStep(t, n, c, i);
    WithoutTwice(t, Gone(t, n, c, i), Subtree(t, e));
    if t[i].state == FILE {
      FilesAreChildless(t1, i + 1);
      ChildlessSubtree(t1, i + 1, e);
    }
  }

  /** eliminarRecursivamente, on names, parents and states: it ends because the live strict
      descendants get fewer, and marks deleted exactly those of entry n. c is the path of n. */
  method EliminateBelow(dir: array<Entry>, n: int, ghost c: Path)
    requires TreeOk(dir[..]) && IsPathOf(dir[..], n, c)
    modifies dir
    ensures dir[..] == Without(old(dir[..]), Below(old(dir[..]), c))
    decreases Below(dir[..], c)
  {
    ghost var t := dir[..];
    assert Gone(t, n, c, 0) == {};
    assert Without(t, {}) == t;
    hide TreeOk, IsPathOf, Gone, Subtree, Below, Without;
    var i := 0;
    while i < dir.Length
      invariant i <= dir.Length
      invariant dir[..] == Without(t, Gone(t, n, c, i))
    {
      NotYetGone(t, n, c, i);
      GoneStep(t, n, c, i);
      assert dir[..][i] == dir[i];
      if dir[i].state != DELETED && dir[i].parent == n {
        ghost var t1, e := dir[..], c + [t[i].name];
        ChildGoes(t, n, c, i);
        if dir[i].state == FILE {
          dir[i] := dir[i].(state := DELETED);
          assert dir[..] == t1[i := Deleted(t1[i])];
        }
        if dir[i].state == DIRECTORY {
          EliminateBelow(dir, i + 1, e);
          ghost var w := dir[..];
          dir[i] := dir[i].(state := DELETED);
          assert dir[..] == w[i := Deleted(w[i])];
        }
        assert dir[..] == Without(t, Gone(t, n, c, i + 1));
      } else {
        assert Gone(t, n, c, i + 1) == Gone(t, n, c, i);
        assert dir[..] == Without(t, Gone(t, n, c, i + 1));
      }
      i := i + 1;
    }
    GoneAll(t, n, c);
  }

  /** A path that does not resolve has no entry under it. */
  lemma NothingUnder(t: Table, c: Path)
    requires TreeOk(t) && Lookup(t, c) == -1
    ensures forall n :: !AtOrUnder(t, n, c)
  {
    forall n, d | IsPathOf(t, n, d) ensures !(c <= d) {
      if c <= d {
        PrefixTaken(t, n, d, c);
      }
    }
  }

  // ================= o_rename =================

  function Renamed(t: Table, n: int, name: string, parent: int): Table
    requires 1 <= n <= |t|
  {
    t[n - 1 := t[n - 1].(name := name, parent := parent)]
  }

  /** The entry at path o may move to path w: w is free, its parent is the root or a live directory
      and is not inside the subtree that moves. */
  ghost predicate MayMove(t: Table, n: int, o: Path, w: Path, parent: int) {
    && o != [] && w != [] && IsPathOf(t, n, o)
    && Lookup(t, w) == -1 && CleanName(w[|w| - 1])
    && IsPathOf(t, parent, w[..|w| - 1]) && IsDirectory(t, parent)
    && !(o <= w[..|w| - 1])
  }

  lemma MoverIsLive(t: Table, n: int, o: Path, w: Path, parent: int)
    requires MayMove(t, n, o, w, parent)
    ensures 1 <= n <= |t| && Live(t, n) && w != [] && Lookup(t, w) == -1
  {
  }

  /** Paths outside the moved subtree stay. */
  lemma {:induction false} UnmovedPath(t: Table, n: int, o: Path, w: Path, parent: int, m: int, d: Path)
    requires MayMove(t, n, o, w, parent) && IsPathOf(t, m, d) && !(o <= d)
    ensures IsPathOf(Renamed(t, n, w[|w| - 1], parent), m, d)
    decreases |d|
  {
    if d != [] {
      var init := d[..|d| - 1];
      assert d == init + [d[|d| - 1]];
      assert o <= init ==> o <= d;
      if m == n {
        PathIsUnique(t, n, o, d);
      }
      UnmovedPath(t, n, o, w, parent, t[m - 1].parent, init);
    }
  }

  /** Paths inside it go along. */
  lemma {:induction false} MovedPath(t: Table, n: int, o: Path, w: Path, parent: int, m: int, rest: Path)
    requires SiblingsDiffer(t) && MayMove(t, n, o, w, parent) && IsPathOf(t, m, o + rest)
    ensures IsPathOf(Renamed(t, n, w[|w| - 1], parent), m, w + rest)
    decreases |rest|
  {
    var t' := Renamed(t, n, w[|w| - 1], parent);
    if rest == [] {
      assert o + rest == o && w + rest == w;
      PathLooksUp(t, m, o);
      PathLooksUp(t, n, o);
      UnmovedPath(t, n, o, w, parent, parent, w[..|w| - 1]);
    } else {
      var init := rest[..|rest| - 1];
      assert (o + rest)[..|o + rest| - 1] == o + init && (w + rest)[..|w + rest| - 1] == w + init;
      if m == n {
        PathIsUnique(t, n, o, o + rest);
      }
      MovedPath(t, n, o, w, parent, t[m - 1].parent, init);
    }
  }

  /** The path of entry m after the move, given its path before. */
  function NewPath(o: Path, w: Path, d: Path): Path {
    if o <= d then w + d[|o|..] else d
  }

  lemma PathAfter(t: Table, n: int, o: Path, w: Path, parent: int, m: int, d: Path)
    requires SiblingsDiffer(t) && MayMove(t, n, o, w, parent) && IsPathOf(t, m, d)
    ensures IsPathOf(Renamed(t, n, w[|w| - 1], parent), m, NewPath(o, w, d))
  {
    if o <= d {
      assert d == o + d[|o|..];
      MovedPath(t, n, o, w, parent, m, d[|o|..]);
    } else {
      UnmovedPath(t, n, o, w, parent, m, d);
    }
  }

  lemma RenamedTreeOk(t: Table, n: int, o: Path, w: Path, parent: int)
    requires TreeOk(t) && MayMove(t, n, o, w, parent)
    ensures TreeOk(Renamed(t, n, w[|w| - 1], parent))
  {
    var t' := Renamed(t, n, w[|w| - 1], parent);
    forall m | Live(t', m) ensures HasPath(t', m) {
      assert Live(t, m);
      PathAfter(t, n, o, w, parent, m, PathOf(t, m));
    }
    PathLooksUp(t, parent, w[..|w| - 1]);
    forall i | 0 <= i < |t| && t[i].state != DELETED ensures t[i].parent != parent || t[i].name != w[|w| - 1] {
      assert !IsChild(t[i], parent, w[|w| - 1]);
    }
    RenamedParents(t, n, w[|w| - 1], parent);
  }

  lemma RenamedParents(t: Table, n: int, name: string, parent: int)
    requires ParentsLive(t) && Live(t, n) && IsDirectory(t, parent)
    ensures ParentsLive(Renamed(t, n, name, parent))
  {
  }

  /** An entry's path is taken by it, and the prefixes of its path by its ancestors. */
  lemma {:induction false} PrefixTaken(t: Table, m: int, d: Path, w: Path)
    requires SiblingsDiffer(t) && IsPathOf(t, m, d) && w <= d
    ensures Lookup(t, w) >= 0
    decreases |d|
  {
    if w == d {
      PathLooksUp(t, m, d);
      PathNumber(t, m, d);
    } else {
      assert d == d[..|d| - 1] + [d[|d| - 1]];
      assert w <= d[..|d| - 1];
      PrefixTaken(t, t[m - 1].parent, d[..|d| - 1], w);
    }
  }

  /** Rename moves a whole subtree: old/rest now resolves as new/rest, nothing is left at the old
      path, and every other path resolves as before. */
  lemma RenamedLookup(t: Table, n: int, o: Path, w: Path, parent: int, q: Path)
    requires TreeOk(t) && MayMove(t, n, o, w, parent)
    ensures Lookup(Renamed(t, n, w[|w| - 1], parent), q) ==
      if w <= q then Lookup(t, o + q[|w|..]) else if o <= q then -1 else Lookup(t, q)
  {
    hide TreeOk, MayMove, IsPathOf, Lookup, Renamed;
    MoverIsLive(t, n, o, w, parent);
    var t' := Renamed(t, n, w[|w| - 1], parent);
    RenamedTreeOk(t, n, o, w, parent);
    TreeParts(t);
    TreeParts(t');
    var source := if w <= q then o + q[|w|..] else q;
    LookupRange(t, source);
    LookupRange(t', q);
    if (w <= q || !(o <= q)) && Lookup(t, source) >= 0 {
      LookupHasPath(t, source);
      PathAfter(t, n, o, w, parent, Lookup(t, source), source);
      assert w <= q ==> source[|o|..] == q[|w|..];
      assert NewPath(o, w, source) == q;
      PathLooksUp(t', Lookup(t, source), q);
    } else if Lookup(t', q) >= 0 {
      var m := Lookup(t', q);
      LookupHasPath(t', q);
      BackBefore(t, n, o, w, parent, m, q);
    }
  }

  lemma TreeParts(t: Table)
    requires TreeOk(t)
    ensures SiblingsDiffer(t) && ParentsLive(t) && Rooted(t)
  {
  }

  /** An entry of the renamed table had a path. */
  lemma OldPath(t: Table, n: int, name: string, parent: int, m: int, q: Path) returns (d: Path)
    requires Rooted(t) && 1 <= n <= |t| && IsPathOf(Renamed(t, n, name, parent), m, q)
    ensures IsPathOf(t, m, d)
  {
    if m == 0 {
      d := [];
    } else {
      assert Live(t, m);
      d := PathOf(t, m);
    }
  }

  /** What resolves after the move resolved before it, at the old path or outside both. */
  lemma BackBefore(t: Table, n: int, o: Path, w: Path, parent: int, m: int, q: Path)
    requires TreeOk(t) && MayMove(t, n, o, w, parent) && IsPathOf(Renamed(t, n, w[|w| - 1], parent), m, q)
    ensures m >= 0
    ensures if w <= q then Lookup(t, o + q[|w|..]) == m else !(o <= q) && Lookup(t, q) == m
  {
    hide TreeOk, MayMove, IsPathOf, Lookup, Renamed;
    MoverIsLive(t, n, o, w, parent);
    var t' := Renamed(t, n, w[|w| - 1], parent);
    PathNumber(t', m, q);
    TreeParts(t);
    var d := OldPath(t, n, w[|w| - 1], parent, m, q);
    PathAfter(t, n, o, w, parent, m, d);
    PathIsUnique(t', m, NewPath(o, w, d), q);
    PathLooksUp(t, m, d);
    if o <= d {
      assert q[|w|..] == d[|o|..] && o + d[|o|..] == d;
    } else if w <= q {
      PrefixTaken(t, m, d, w);
    }
  }

  /** Moving an entry under itself cuts its subtree off the root. */
  lemma {:induction false} MovedUnderItself(t: Table, n: int, o: Path, name: string, parent: int, p: Path, m: int,
      rest: Path, d: Path)
    requires SiblingsDiffer(t) && o != [] && IsPathOf(t, n, o) && IsPathOf(t, parent, p) && o <= p
    requires IsPathOf(t, m, o + rest)
    ensures !IsPathOf(Renamed(t, n, name, parent), m, d)
    decreases |d|
  {
    var t' := Renamed(t, n, name, parent);
    if d != [] && IsPathOf(t', m, d) {
      var init := d[..|d| - 1];
      if m == n {
        assert p == o + p[|o|..];
        MovedUnderItself(t, n, o, name, parent, p, parent, p[|o|..], init);
      } else {
        if rest == [] {
          assert o + rest == o;
          PathLooksUp(t, m, o);
          PathLooksUp(t, n, o);
        }
        assert (o + rest)[..|o + rest| - 1] == o + rest[..|rest| - 1];
        MovedUnderItself(t, n, o, name, parent, p, t[m - 1].parent, rest[..|rest| - 1], init);
      }
    }
  }

  /** When o_rename, which checks none of this, keeps a tree: exactly when the new parent is the root
      or a live directory outside the moved subtree, and the new path is free or the old one. */
  lemma RenameKeepsTreeExactly(t: Table, n: int, o: Path, p: Path, name: string)
    requires TreeOk(t) && Live(t, n) && IsPathOf(t, n, o) && CleanName(name)
    ensures var parent := Lookup(t, p);
      TreeOk(Renamed(t, n, name, parent)) <==>
        IsDirectory(t, parent) && !(o <= p) && Lookup(t, p + [name]) in {-1, n}
  {
    hide TreeOk, IsPathOf, Lookup, Renamed;
    var parent, w := Lookup(t, p), p + [name];
    assert w[..|w| - 1] == p;
    TreeParts(t);
    LookupRange(t, w);
    if !IsDirectory(t, parent) {
      RenamedOrphan(t, n, name, parent);
    } else {
      DirectoryHasPath(t, p);
      if o <= p {
        NotRooted(t, n, o, name, parent, p);
      } else if Lookup(t, w) == -1 {
        EntryIsNotRoot(t, n, o);
        assert MayMove(t, n, o, w, parent);
        RenamedTreeOk(t, n, o, w, parent);
      } else {
        TargetIsChild(t, p, name);
        RenamedOnto(t, n, name, parent, Lookup(t, w));
      }
    }
  }

  lemma EntryIsNotRoot(t: Table, n: int, o: Path)
    requires IsPathOf(t, n, o) && Live(t, n)
    ensures o != []
  {
  }

  lemma DirectoryHasPath(t: Table, p: Path)
    requires ParentsLive(t) && IsDirectory(t, Lookup(t, p))
    ensures IsPathOf(t, Lookup(t, p), p)
  {
    LookupHasPath(t, p);
  }

  lemma TargetIsChild(t: Table, p: Path, name: string)
    requires Lookup(t, p + [name]) != -1
    ensures var m := Lookup(t, p + [name]); Live(t, m) && t[m - 1].parent == Lookup(t, p) && t[m - 1].name == name
  {
    assert (p + [name])[..|p|] == p;
  }

  lemma RenamedOrphan(t: Table, n: int, name: string, parent: int)
    requires Live(t, n) && !IsDirectory(t, parent)
    ensures !TreeOk(Renamed(t, n, name, parent))
  {
    var t' := Renamed(t, n, name, parent);
    assert t'[n - 1].parent == parent && !IsDirectory(t', parent);
  }

  lemma NotRooted(t: Table, n: int, o: Path, name: string, parent: int, p: Path)
    requires TreeOk(t) && Live(t, n) && IsPathOf(t, n, o) && IsPathOf(t, parent, p) && o <= p
    ensures !TreeOk(Renamed(t, n, name, parent))
  {
    hide SiblingsDiffer, IsPathOf;
    EntryIsNotRoot(t, n, o);
    var t' := Renamed(t, n, name, parent);
    assert Live(t', n);
    assert o + [] == o;
    forall d ensures !IsPathOf(t', n, d) {
      MovedUnderItself(t, n, o, name, parent, p, n, [], d);
    }
    assert !HasPath(t', n);
  }

  /** The new path is that of entry m: unless m is the moved entry itself, two siblings clash. */
  lemma RenamedOnto(t: Table, n: int, name: string, parent: int, m: int)
    requires TreeOk(t) && Live(t, n) && Live(t, m) && t[m - 1].parent == parent && t[m - 1].name == name
    ensures TreeOk(Renamed(t, n, name, parent)) <==> m == n
  {
    var t' := Renamed(t, n, name, parent);
    if m == n {
      assert t' == t;
    } else {
      assert t'[m - 1] == t[m - 1] && t'[n - 1].state != DELETED;
    }
  }

  // ================= runs over the tree =================

  datatype TreeRequest =
    | Add(path: string, state: EntryState)     // o_create, o_mkdir
    | RemoveOne(path: string)                  // o_rmdir2, as o_unlink calls it
    | RemoveAll(path: string)                  // o_rmdir
    | Move(old_: string, new_: string)         // o_rename

  ghost predicate TreeAccepts(t: Table, r: TreeRequest) {
    match r
    case Add(path, state) =>
      && Absolute(path) && state != DELETED
      && (Place(t, path).Slot? ==> CleanName(NamePart(path)) && IsDirectory(t, Place(t, path).parent))
    case RemoveOne(path) => Absolute(path) && Resolve(t, path) != 0
    case RemoveAll(path) => Absolute(path) && Resolve(t, path) != 0
    case Move(old_, new_) =>
      && Absolute(old_)
      && (Resolve(t, old_) == -1 ||
          (&& Splittable(new_) && Resolve(t, old_) > 0
           && MayMove(t, Resolve(t, old_), Components(old_), Components(new_), Resolve(t, SuperPart(new_)))))
  }

  /** The table after a request, whatever becomes of the storage. */
  ghost function TreeServe(t: Table, r: TreeRequest): Table
    requires TreeAccepts(t, r)
  {
    match r
    case Add(path, state) =>
      if Place(t, path).Slot?
        then WithEntry(t, Place(t, path).index, Entry(state, NamePart(path), Place(t, path).parent)) else t
    case RemoveOne(path) =>
      var n := Resolve(t, path);
      if n <= 0 || n > |t| || HasChildren(t, n) then t else t[n - 1 := Deleted(t[n - 1])]
    case RemoveAll(path) => if Resolve(t, path) == -1 then t else Without(t, Subtree(t, Components(path)))
    case Move(old_, new_) =>
      ResolveIsLookup(t, old_);
      LookupRange(t, Components(old_));
      if Resolve(t, old_) == -1 then t
      else Renamed(t, Resolve(t, old_), NamePart(new_), Resolve(t, SuperPart(new_)))
  }

  lemma TreeServeOk(t: Table, r: TreeRequest)
    requires TreeOk(t) && TreeAccepts(t, r)
    ensures TreeOk(TreeServe(t, r))
  {
    hide TreeOk;
    match r
    case Add(path, state) =>
      if Place(t, path).Slot? {
        PlacedMayAdd(t, path, state);
        AddedTreeOk(t, Place(t, path).index, Entry(state, NamePart(path), Place(t, path).parent), Components(path));
      }
    case RemoveOne(path) => RemoveOneOk(t, path);
    case RemoveAll(path) => RemoveAllOk(t, path);
    case Move(old_, new_) =>
      ResolveIsLookup(t, old_);
      LookupRange(t, Components(old_));
      if Resolve(t, old_) != -1 {
        assert Components(new_)[|Components(new_)| - 1] == NamePart(new_);
        RenamedTreeOk(t, Resolve(t, old_), Components(old_), Components(new_), Resolve(t, SuperPart(new_)));
      }
  }

  lemma RemoveAllOk(t: Table, path: string)
    requires TreeOk(t) && Absolute(path)
    ensures TreeOk(Without(t, Subtree(t, Components(path))))
  {
    SubtreeClosed(t, Components(path));
    WithoutTreeOk(t, Subtree(t, Components(path)));
  }

  lemma RemoveOneOk(t: Table, path: string)
    requires TreeOk(t) && Absolute(path) && Resolve(t, path) != 0
    ensures TreeOk(TreeServe(t, RemoveOne(path)))
  {
    var n, c := Resolve(t, path), Components(path);
    ResolveIsLookup(t, path);
    LookupRange(t, c);
    if n > 0 && !HasChildren(t, n) {
      LookupHasPath(t, c);
      ChildlessSubtree(t, n, c);
      RemoveAllOk(t, path);
    }
  }

  ghost predicate TreeRun(t: Table, rs: seq<TreeRequest>, last: Table)
    decreases |rs|
  {
    if rs == [] then t == last
    else TreeAccepts(t, rs[0]) && TreeRun(TreeServe(t, rs[0]), rs[1..], last)
  }

  /** Tree invariant over any run of create, mkdir, unlink, rmdir (with or without files below) and
      rename. */
  lemma {:induction false} TreeRunOk(t: Table, rs: seq<TreeRequest>, last: Table)
    requires TreeOk(t) && TreeRun(t, rs, last)
    ensures TreeOk(last)
    decreases |rs|
  {
    hide TreeOk, TreeAccepts, TreeServe;
    if rs != [] {
      TreeServeOk(t, rs[0]);
      TreeRunOk(TreeServe(t, rs[0]), rs[1..], last);
    }
  }

  /** A free slot has no children, and neither has the entry put there. */
  lemma ReusedSlotIsChildless(t: Table, k: nat, e: Entry, c: Path)
    requires TreeOk(t) && MayAdd(t, k, e, c)
    ensures !HasChildren(t, k + 1) && !HasChildren(WithEntry(t, k, e), k + 1)
  {
    assert IsDirectory(t, e.parent) && e.parent != k + 1;
  }
}
