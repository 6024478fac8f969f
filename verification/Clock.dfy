/** The enhanced clock page replacement of MUSE (Memoria/muse.c). */
module Clock {

  /** The two bits the algorithm looks at, kept as the plain integers the source uses. */
  datatype Frame = Frame(used: int, modified: int)

  /** The classes in order of preference; 4 is a frame no pass can choose. */
  function Class(f: Frame): nat {
    if f.modified == 0 then (if f.used == 0 then 0 else 2)
    else if f.modified == 1 then (if f.used == 0 then 1 else 3)
    else 4
  }

  /** The k-th position met when walking n frames cyclically from hand. */
  function At(hand: nat, k: nat, n: nat): nat
    requires hand < n && k <= n
  {
    if hand + k < n then hand + k else hand + k - n
  }

  /** fs with the use bit cleared in the first m positions met from hand. */
  function Cleared(fs: seq<Frame>, hand: nat, m: nat): seq<Frame>
    requires hand < |fs| && m <= |fs|
  {
    seq(|fs|, i requires 0 <= i < |fs| =>
      if hand <= i < hand + m || i + |fs| < hand + m then fs[i].(used := 0) else fs[i])
  }

  /** The frame met after k steps is the first one of class c, and no frame is of a lower class. */
  ghost predicate BestAt(fs: seq<Frame>, hand: nat, c: nat, k: nat) {
    && hand < |fs| && k < |fs|
    && Class(fs[At(hand, k, |fs|)]) == c < 4
    && (forall j :: 0 <= j < k ==> Class(fs[At(hand, j, |fs|)]) != c)
    && (forall i :: 0 <= i < |fs| ==> c <= Class(fs[i]))
  }

  /** How many use bits are cleared when a frame of class c is met after k steps among n. */
  function ClearedCount(c: nat, k: nat, n: nat): nat {
    if c == 0 then 0 else if c == 1 then k else n
  }

  /** One replacement: which victim, where the hand ends, and the bits afterwards. */
  ghost predicate Chosen(fs: seq<Frame>, hand: nat, fs': seq<Frame>, hand': nat, victim: int) {
    exists c: nat, k: nat ::
      && BestAt(fs, hand, c, k)
      && victim == At(hand, k, |fs|)
      && hand' == At(hand, k + 1, |fs|)
      && fs' == Cleared(fs, hand, ClearedCount(c, k, |fs|))
  }

  class Replacer {
    var frames: array<Frame>
    var hand: nat

    ghost predicate Valid()
      reads this
    {
      if frames.Length == 0 then hand == 0 else hand < frames.Length
    }

    /** incrementarPunteroClockModificado */
    method Advance()
      requires Valid()
      modifies `hand
      ensures Valid()
      ensures hand == if frames.Length == 0 then 0 else At(old(hand), 1, frames.Length)
    {
      if hand < frames.Length - 1 {
        hand := hand + 1;
      } else {
        hand := 0;
      }
    }

    /** One pass that clears nothing (the first, third and fourth): stop at the first frame with the
        use bit off and the given modified bit. */
    method Scan(modified: int) returns (victim: int, ghost steps: nat)
      requires Valid()
      modifies `hand
      ensures Valid()
      ensures victim == -1 ==> hand == old(hand) && NoneFree(frames[..], modified)
      ensures victim != -1 ==>
        && FirstAt(frames[..], old(hand), modified, steps)
        && victim == At(old(hand), steps, frames.Length) && hand == At(old(hand), steps + 1, frames.Length)
    {
      ghost var h, n := hand, frames.Length;
      var visited := 0;
      while visited < frames.Length
        invariant visited <= n && Valid()
        invariant n > 0 ==> hand == At(h, visited, n)
        invariant forall j :: 0 <= j < visited ==> frames[At(h, j, n)] != Free(frames[At(h, j, n)], modified)
      {
        if frames[hand].used == 0 && frames[hand].modified == modified {
          victim, steps := hand, visited;
          Advance();
          return;
        }
        visited := visited + 1;
        Advance();
      }
      victim, steps := -1, 0;
      AllVisited(frames[..], h, modified);
    }

    /** The second pass: like Scan for a set modified bit, clearing the use bit of what it skips. */
    method ScanClearing() returns (victim: int, ghost steps: nat)
      requires Valid()
      modifies `hand, frames
      ensures Valid() && frames == old(frames)
      ensures victim == -1 ==>
        && hand == old(hand) && NoneFree(old(frames[..]), 1)
        && (frames.Length > 0 ==> frames[..] == Cleared(old(frames[..]), old(hand), frames.Length))
      ensures victim != -1 ==>
        && FirstAt(old(frames[..]), old(hand), 1, steps)
        && victim == At(old(hand), steps, frames.Length) && hand == At(old(hand), steps + 1, frames.Length)
        && frames[..] == Cleared(old(frames[..]), old(hand), steps)
    {
      ghost var fs, h, n := frames[..], hand, frames.Length;
      var visited := 0;
      while visited < frames.Length
        invariant visited <= n && Valid()
        invariant n > 0 ==> hand == At(h, visited, n) && frames[..] == Cleared(fs, h, visited)
        invariant forall j :: 0 <= j < visited ==> fs[At(h, j, n)] != Free(fs[At(h, j, n)], 1)
      {
        assert frames[..][hand] == fs[hand];
        if frames[hand].used == 0 && frames[hand].modified == 1 {
          victim, steps := hand, visited;
          Advance();
          return;
        }
        frames[hand] := frames[hand].(used := 0);
        visited := visited + 1;
        Advance();
      }
      victim, steps := -1, 0;
      AllVisited(fs, h, 1);
    }

    /** clockModificado: four passes over the frames. It finds nothing only when no frame has a 0/1
        modified bit. */
    method Choose() returns (victim: int)
      requires Valid()
      modifies `hand, frames
      ensures Valid() && frames == old(frames)
      ensures victim == -1 <==> forall i :: 0 <= i < frames.Length ==> Class(old(frames[..])[i]) == 4
      ensures victim != -1 ==> Chosen(old(frames[..]), old(hand), frames[..], hand, victim)
      ensures victim == -1 ==> hand == old(hand)
    {
      ghost var fs, h := frames[..], hand;
      ghost var k;
      victim, k := Scan(0);
      if victim != -1 {
        Best(fs, h, 0, k);
        return;
      }
      victim, k := ScanClearing();
      if victim != -1 {
        Best(fs, h, 1, k);
        return;
      }
      victim, k := Scan(0);
      if victim != -1 {
        Best(fs, h, 2, k);
        return;
      }
      victim, k := Scan(1);
      if victim != -1 {
        Best(fs, h, 3, k);
        return;
      }
      NoneChoosable(fs, h);
    }
  }

  /** f with its use bit off and the given modified bit: what a pass looks for. */
  function Free(f: Frame, modified: int): Frame {
    f.(used := 0, modified := modified)
  }

  /** The frame met after k steps is the first with its use bit off and the given modified bit. */
  ghost predicate FirstAt(fs: seq<Frame>, hand: nat, modified: int, k: nat) {
    && hand < |fs| && k < |fs|
    && fs[At(hand, k, |fs|)] == Free(fs[At(hand, k, |fs|)], modified)
    && forall j :: 0 <= j < k ==> fs[At(hand, j, |fs|)] != Free(fs[At(hand, j, |fs|)], modified)
  }

  ghost predicate NoneFree(fs: seq<Frame>, modified: int) {
    forall i :: 0 <= i < |fs| ==> fs[i] != Free(fs[i], modified)
  }

  /** What the first c passes have ruled out when the next one starts. */
  ghost predicate RuledOut(fs: seq<Frame>, hand: nat, c: nat)
    requires hand < |fs|
  {
    && (c >= 1 ==> NoneFree(fs, 0))
    && (c >= 2 ==> NoneFree(fs, 1))
    && (c >= 3 ==> NoneFree(Cleared(fs, hand, |fs|), 0))
    && (c >= 4 ==> NoneFree(Cleared(fs, hand, |fs|), 1))
  }

  lemma RuledOutClasses(fs: seq<Frame>, hand: nat, c: nat)
    requires hand < |fs| && c <= 4 && RuledOut(fs, hand, c)
    ensures forall i :: 0 <= i < |fs| ==> c <= Class(fs[i])
  {
    forall i | 0 <= i < |fs| ensures c <= Class(fs[i]) {
      assert Cleared(fs, hand, |fs|)[i] == fs[i].(used := 0);
    }
  }

  /** The frame that pass c finds is the best one. */
  lemma Best(fs: seq<Frame>, hand: nat, c: nat, k: nat)
    requires c < 4 && hand < |fs| && RuledOut(fs, hand, c)
    requires FirstAt(if c < 2 then fs else Cleared(fs, hand, |fs|), hand, c % 2, k)
    ensures BestAt(fs, hand, c, k)
  {
    RuledOutClasses(fs, hand, c);
  }

  lemma NoneChoosable(fs: seq<Frame>, hand: nat)
    requires |fs| > 0 ==> hand < |fs| && RuledOut(fs, hand, 4)
    ensures forall i :: 0 <= i < |fs| ==> Class(fs[i]) == 4
  {
    if |fs| > 0 {
      RuledOutClasses(fs, hand, 4);
    }
  }

  /** A full turn of the hand meets every frame. */
  lemma AllVisited(fs: seq<Frame>, hand: nat, modified: int)
    requires |fs| > 0 ==> hand < |fs|
    requires forall j :: 0 <= j < |fs| ==> fs[At(hand, j, |fs|)] != Free(fs[At(hand, j, |fs|)], modified)
    ensures NoneFree(fs, modified)
  {
    forall i | 0 <= i < |fs| ensures fs[i] != Free(fs[i], modified) {
      var j := if hand <= i then i - hand else i + |fs| - hand;
      assert At(hand, j, |fs|) == i;
    }
  }

  /** The victim and the new state are determined: preference class first, then cyclic distance. */
  lemma ChosenIsUnique(fs: seq<Frame>, h: nat, a: seq<Frame>, ha: nat, va: int, b: seq<Frame>, hb: nat, vb: int)
    requires Chosen(fs, h, a, ha, va) && Chosen(fs, h, b, hb, vb)
    ensures a == b && ha == hb && va == vb
  {
    var c: nat, k: nat :| BestAt(fs, h, c, k) && va == At(h, k, |fs|) && ha == At(h, k + 1, |fs|)
      && a == Cleared(fs, h, ClearedCount(c, k, |fs|));
    var d, l: nat :| BestAt(fs, h, d, l) && vb == At(h, l, |fs|) && hb == At(h, l + 1, |fs|)
      && b == Cleared(fs, h, ClearedCount(d, l, |fs|));
    assert c == d;
    assert k == l;
  }

  /** How far position i is from the hand, walking cyclically over n frames. */
  function Distance(hand: nat, i: int, n: nat): int {
    if hand <= i then i - hand else i + n - hand
  }

  lemma DistanceIsWalked(hand: nat, i: nat, n: nat, m: nat)
    requires hand < n && i < n && m <= n
    ensures 0 <= Distance(hand, i, n) < n && At(hand, Distance(hand, i, n), n) == i
    ensures (hand <= i < hand + m || i + n < hand + m) <==> Distance(hand, i, n) < m
  {
  }

  /** The victim is of the first class there is of not used and not modified, not used and modified, used and
      not modified, used and modified. */
  lemma ChosenIsPreferred(fs: seq<Frame>, hand: nat, fs': seq<Frame>, hand': nat, victim: int)
    requires Chosen(fs, hand, fs', hand', victim)
    ensures hand < |fs| == |fs'| && 0 <= victim < |fs| && hand' == if victim == |fs| - 1 then 0 else victim + 1
    ensures var v := fs[victim];
      && v.modified in {0, 1}
      && (v.modified == 0 && v.used != 0 ==> forall f :: f in fs && f.used == 0 ==> f.modified !in {0, 1})
      && (v.modified == 1 && v.used == 0 ==> forall f :: f in fs && f.modified == 0 ==> f.used != 0)
      && (v.modified == 1 && v.used != 0 ==> forall f :: f in fs ==>
            f.modified !in {0, 1} || (f.modified == 1 && f.used != 0))
  {
    var c: nat, k: nat :| BestAt(fs, hand, c, k) && victim == At(hand, k, |fs|) && hand' == At(hand, k + 1, |fs|)
      && fs' == Cleared(fs, hand, ClearedCount(c, k, |fs|));
    forall f | f in fs ensures c <= Class(f) {
      var i :| 0 <= i < |fs| && fs[i] == f;
    }
  }

  /** No frame met before the victim has the same bits, and the use bits cleared are: none when the victim
      has neither bit set, those of the frames met before it when it is only modified, all when it is used. */
  lemma ChosenInBits(fs: seq<Frame>, hand: nat, fs': seq<Frame>, hand': nat, victim: int)
    requires Chosen(fs, hand, fs', hand', victim)
    ensures hand < |fs| == |fs'| && 0 <= victim < |fs|
    ensures forall i :: 0 <= i < |fs| && Distance(hand, i, |fs|) < Distance(hand, victim, |fs|) ==>
      fs[i].modified != fs[victim].modified || (fs[i].used == 0) != (fs[victim].used == 0)
    ensures forall i :: 0 <= i < |fs| ==>
      fs'[i] ==
        if fs[victim].used != 0
           || (fs[victim].modified == 1 && Distance(hand, i, |fs|) < Distance(hand, victim, |fs|))
        then Frame(0, fs[i].modified) else fs[i]
  {
    var c: nat, k: nat :| BestAt(fs, hand, c, k) && victim == At(hand, k, |fs|) && hand' == At(hand, k + 1, |fs|)
      && fs' == Cleared(fs, hand, ClearedCount(c, k, |fs|));
    DistanceIsWalked(hand, victim, |fs|, k);
    DistanceIsWalked(hand, victim, |fs|, if k < |fs| then k + 1 else k);
    hide Distance;
    forall i | 0 <= i < |fs|
      ensures Distance(hand, i, |fs|) < k ==> Class(fs[i]) != c
      ensures fs'[i] == if Distance(hand, i, |fs|) < ClearedCount(c, k, |fs|) then fs[i].(used := 0) else fs[i]
      ensures Distance(hand, i, |fs|) < |fs|
    {
      DistanceIsWalked(hand, i, |fs|, k);
      DistanceIsWalked(hand, i, |fs|, ClearedCount(c, k, |fs|));
    }
  }

  /** With every bit 0 or 1 and at least one frame there is always a victim. */
  lemma BitsAreChoosable(fs: seq<Frame>)
    requires |fs| > 0
    requires forall f :: f in fs ==> f.used in {0, 1} && f.modified in {0, 1}
    ensures !forall i :: 0 <= i < |fs| ==> Class(fs[i]) == 4
  {
    assert fs[0] in fs;
  }

  /** A run of replacements under a writing workload: the page brought into a victim frame is written
      before the next replacement, and no other page is touched meanwhile. */
  ghost predicate Run(states: seq<(seq<Frame>, nat)>, victims: seq<int>) {
    && |states| == |victims| + 1
    && forall i :: 0 <= i < |victims| ==> Replaced(states[i], states[i + 1], victims[i])
  }

  ghost predicate Replaced(s: (seq<Frame>, nat), t: (seq<Frame>, nat), victim: int) {
    && 0 <= victim < |s.0|
    && |t.0| == |s.0|
    && exists mid :: Chosen(s.0, s.1, mid, t.1, victim) && |mid| == |s.0| && t.0 == mid[victim := Frame(1, 1)]
  }

  /** After k of the n frames were replaced in a row, starting with all bits set. */
  ghost predicate Rotated(fs: seq<Frame>, hand: nat, k: nat) {
    && hand < |fs| && 0 < k <= |fs|
    && forall j :: 0 <= j < |fs| ==> fs[At(hand, j, |fs|)] == Frame(if j < k then 1 else 0, 1)
  }

  /** Under full load (every frame used and modified) the algorithm is fair: n replacements in a
      row evict the n frames in order from the hand, each exactly once. */
  lemma {:induction false} RoundRobin(states: seq<(seq<Frame>, nat)>, victims: seq<int>)
    requires Run(states, victims)
    requires 0 < |victims| <= |states[0].0| && states[0].1 < |states[0].0|
    requires forall f :: f in states[0].0 ==> f == Frame(1, 1)
    ensures forall i :: 0 <= i < |victims| ==> victims[i] == At(states[0].1, i, |states[0].0|)
    ensures Rotated(states[|victims|].0, states[0].1, |victims|)
    ensures |states[|victims|].0| == |states[0].0| && states[|victims|].1 == At(states[0].1, |victims|, |states[0].0|)
  {
    hide Chosen, Rotated;
    var m := |victims| - 1;
    var fs, h, n := states[m].0, states[0].1, |states[0].0|;
    assert Replaced(states[m], states[m + 1], victims[m]);
    var mid :| Chosen(fs, states[m].1, mid, states[m + 1].1, victims[m]) && |mid| == |fs|
      && states[m + 1].0 == mid[victims[m] := Frame(1, 1)];
    if m == 0 {
      FullTurn(fs, h, mid, states[1].1, victims[0]);
    } else {
      RoundRobin(states[..m + 1], victims[..m]);
      PartialTurn(fs, h, m, mid, states[m + 1].1, victims[m]);
    }
  }

  lemma FullTurn(fs: seq<Frame>, h: nat, mid: seq<Frame>, h': nat, victim: int)
    requires Chosen(fs, h, mid, h', victim) && |mid| == |fs|
    requires forall f :: f in fs ==> f == Frame(1, 1)
    ensures victim == h < |fs| && h' == At(h, 1, |fs|) && Rotated(mid[victim := Frame(1, 1)], h, 1)
  {
    var c: nat, k: nat :| BestAt(fs, h, c, k) && victim == At(h, k, |fs|) && h' == At(h, k + 1, |fs|)
      && mid == Cleared(fs, h, ClearedCount(c, k, |fs|));
    assert forall i :: 0 <= i < |fs| ==> fs[i] in fs;
    assert Class(fs[At(h, k, |fs|)]) == 3;
    assert Class(fs[At(h, 0, |fs|)]) == 3;
    assert k == 0;
  }

  lemma PartialTurn(fs: seq<Frame>, h: nat, m: nat, mid: seq<Frame>, h': nat, victim: int)
    requires Rotated(fs, h, m) && m < |fs|
    requires Chosen(fs, At(h, m, |fs|), mid, h', victim) && |mid| == |fs|
    ensures victim == At(h, m, |fs|) && h' == At(h, m + 1, |fs|) && Rotated(mid[victim := Frame(1, 1)], h, m + 1)
  {
    var g := At(h, m, |fs|);
    var c: nat, k: nat :| BestAt(fs, g, c, k) && victim == At(g, k, |fs|) && h' == At(g, k + 1, |fs|)
      && mid == Cleared(fs, g, ClearedCount(c, k, |fs|));
    assert fs[g] == Frame(0, 1);
    forall i | 0 <= i < |fs| ensures Class(fs[i]) in {1, 3} {
      var j := if h <= i then i - h else i + |fs| - h;
      assert At(h, j, |fs|) == i;
    }
    assert c == 1;
    assert fs[At(g, 0, |fs|)] == Frame(0, 1);
    assert k == 0;
    assert mid == fs;
  }
}
