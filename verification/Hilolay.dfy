/** The client half of the scheduling protocol: the user-level thread table of a program
    (Planificador/Hilolay/hilolay/hilolay_internal.c). */
module Hilolay {
  /** enum State */
  datatype TcbState = FREE | RUNNING | READY

  /** struct TCB, without its execution context */
  datatype Tcb = Tcb(id: int, state: TcbState)

  const MAX_ULTS: nat := 5000
  const MAIN_THREAD_ID: int := 0
  const ERROR_TOO_MANY_ULTS: int := -1

  /** The globals of the library: the table, the running entry and the next id to give out. */
  datatype Client = Client(ults: seq<Tcb>, current: nat, nextId: int)

  /** init_internal */
  function InitialClient(): Client {
    Client(seq(MAX_ULTS, i => if i == 0 then Tcb(MAIN_THREAD_ID, RUNNING) else Tcb(0, FREE)), 0, 1)
  }

  /** The first entry from i on that is free; the table size when there is none. */
  function FreeSlot(ults: seq<Tcb>, i: nat): (slot: nat)
    requires i <= |ults|
    ensures i <= slot <= |ults| && (slot < |ults| ==> ults[slot].state == FREE)
    ensures forall j :: i <= j < slot ==> ults[j].state != FREE
    decreases |ults| - i
  {
    if i == |ults| || ults[i].state == FREE then i else FreeSlot(ults, i + 1)
  }

  /** The first entry from i on with this id, whatever its state; the table size when there is none. */
  function SlotOf(ults: seq<Tcb>, tid: int, i: nat): (slot: nat)
    requires i <= |ults|
    ensures i <= slot <= |ults| && (slot < |ults| ==> ults[slot].id == tid)
    ensures forall j :: i <= j < slot ==> ults[j].id != tid
    decreases |ults| - i
  {
    if i == |ults| || ults[i].id == tid then i else SlotOf(ults, tid, i + 1)
  }

  /** hilolay_create: the new thread's id, or ERROR_TOO_MANY_ULTS. */
  function Spawn(c: Client): (Client, int) {
    var slot := FreeSlot(c.ults, 0);
    if slot == |c.ults| then (c, ERROR_TOO_MANY_ULTS)
    else (c.(ults := c.ults[slot := Tcb(c.nextId, READY)], nextId := c.nextId + 1), c.nextId)
  }

  /** swap_context: the current thread becomes READY, then the selected one RUNNING. */
  function Swap(c: Client, slot: nat): Client
    requires c.current < |c.ults| && slot < |c.ults|
  {
    var ults := c.ults[c.current := c.ults[c.current].(state := READY)];
    c.(ults := ults[slot := ults[slot].(state := RUNNING)], current := slot)
  }

  /** hilolay_yield, given the id suse_schedule_next returned */
  function Yield(c: Client, tid: int): Client
    requires c.current < |c.ults| && SlotOf(c.ults, tid, 0) < |c.ults|
  {
    Swap(c, SlotOf(c.ults, tid, 0))
  }

  /** The table is filled from the start, entry i holding thread i; just the current one is RUNNING. */
  ghost predicate ClientOk(c: Client) {
    && |c.ults| == MAX_ULTS
    && 1 <= c.nextId <= MAX_ULTS
    && c.current < c.nextId
    && (forall i :: 0 <= i < c.nextId ==> c.ults[i] == Tcb(i, if i == c.current then RUNNING else READY))
    && (forall i :: c.nextId <= i < MAX_ULTS ==> c.ults[i] == Tcb(0, FREE))
  }

  lemma InitialOk()
    ensures ClientOk(InitialClient())
  {
  }

  lemma {:induction false} FreeSlotIsNext(c: Client, i: nat)
    requires ClientOk(c) && i <= c.nextId
    ensures FreeSlot(c.ults, i) == c.nextId
    decreases c.nextId - i
  {
    if i < c.nextId {
      FreeSlotIsNext(c, i + 1);
    }
  }

  /** hilolay_create gives out the next id and fails exactly when all MAX_ULTS entries were used. */
  lemma SpawnOk(c: Client)
    requires ClientOk(c)
    ensures ClientOk(Spawn(c).0) && Spawn(c).0.current == c.current
    ensures if c.nextId == MAX_ULTS then Spawn(c) == (c, ERROR_TOO_MANY_ULTS)
            else Spawn(c).1 == c.nextId && Spawn(c).0.nextId == c.nextId + 1
  {
    FreeSlotIsNext(c, 0);
  }

  /** get_next_tid finds every id the library ever gave out, in the entry of that number. */
  lemma {:induction false} SlotIsId(c: Client, tid: int, i: nat)
    requires ClientOk(c) && i <= tid < c.nextId
    ensures SlotOf(c.ults, tid, i) == tid
    decreases tid - i
  {
    if i < tid {
      SlotIsId(c, tid, i + 1);
    }
  }

  lemma YieldOk(c: Client, tid: int)
    requires ClientOk(c) && 0 <= tid < c.nextId
    ensures SlotOf(c.ults, tid, 0) == tid
    ensures ClientOk(Yield(c, tid)) && Yield(c, tid).current == tid && Yield(c, tid).nextId == c.nextId
  {
    SlotIsId(c, tid, 0);
  }

  /** Exactly one TCB runs, and TCBs that are not free have distinct ids. */
  lemma OneRuns(c: Client)
    requires ClientOk(c)
    ensures forall i :: 0 <= i < |c.ults| ==> (c.ults[i].state == RUNNING <==> i == c.current)
    ensures forall i, j :: 0 <= i < j < |c.ults| && c.ults[i].state != FREE && c.ults[j].state != FREE ==>
      c.ults[i].id != c.ults[j].id
  {
  }

  lemma ClientIndex(c: Client)
    requires ClientOk(c)
    ensures c.current < |c.ults| && c.nextId <= |c.ults|
  {
  }

  class Library {
    var ults: array<Tcb>
    var current: nat
    var nextId: int

    ghost function Now(): Client
      reads this, ults
    {
      Client(ults[..], current, nextId)
    }

    /** init_internal */
    constructor ()
      ensures fresh(ults) && Now() == InitialClient()
    {
      var table := new Tcb[MAX_ULTS](_ => Tcb(0, FREE));
      table[0] := Tcb(MAIN_THREAD_ID, RUNNING);
      ults, current, nextId := table, 0, 1;
    }

    /** find_free_tcb */
    method FindFree() returns (slot: nat)
      ensures slot == FreeSlot(ults[..], 0)
    {
      slot := 0;
      while slot < ults.Length && ults[slot].state != FREE
        invariant slot <= ults.Length && FreeSlot(ults[..], slot) == FreeSlot(ults[..], 0)
      {
        slot := slot + 1;
      }
    }

    /** hilolay_create, up to the request it sends */
    method Create() returns (tid: int)
      modifies this, ults
      ensures ults == old(ults) && (Now(), tid) == Spawn(old(Now()))
    {
      var slot := FindFree();
      if slot == ults.Length {
        return ERROR_TOO_MANY_ULTS;
      }
      tid := nextId;
      nextId := nextId + 1;
      ults[slot] := Tcb(tid, READY);
    }

    /** The search of get_next_tid */
    method Find(tid: int) returns (slot: nat)
      ensures slot == SlotOf(ults[..], tid, 0)
    {
      slot := 0;
      while slot < ults.Length && ults[slot].id != tid
        invariant slot <= ults.Length && SlotOf(ults[..], tid, slot) == SlotOf(ults[..], tid, 0)
      {
        slot := slot + 1;
      }
    }

    /** hilolay_yield with swap_context: a null TCB must not be followed. */
    method SwitchTo(tid: int)
      requires current < ults.Length && SlotOf(ults[..], tid, 0) < ults.Length
      modifies this, ults
      ensures ults == old(ults) && Now() == Yield(old(Now()), tid)
    {
      var slot := Find(tid);
      ults[current] := ults[current].(state := READY);
      ults[slot] := ults[slot].(state := RUNNING);
      current := slot;
    }
  }
}
