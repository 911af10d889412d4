/** The reader registry as one process works on it, and the lossless producer's cached gate. */
module Registry {
  import opened Basics
  import opened Lossless
  import opened Backpressure

  predicate Takeable(slot: ReaderSlot, dead: set<nat>) { slot.pid == 0 || slot.pid in dead }

  /** A registry in which the slots of dead processes have been released. */
  function Pruned(slots: seq<ReaderSlot>, dead: set<nat>): (r: seq<ReaderSlot>)
    ensures |r| == |slots|
    ensures forall i :: 0 <= i < |r| ==> r[i] == if slots[i].pid in dead then slots[i].(pid := 0) else slots[i]
  {
    seq(|slots|, i requires 0 <= i < |slots| => if slots[i].pid in dead then slots[i].(pid := 0) else slots[i])
  }

  /** How many of the first `n` slots belong to dead processes. */
  function DeadSlots(slots: seq<ReaderSlot>, dead: set<nat>, n: nat): (c: nat)
    requires n <= |slots|
    ensures c > 0 <==> exists i :: 0 <= i < n && slots[i].pid in dead
  {
    if n == 0 then 0 else DeadSlots(slots, dead, n - 1) + (if slots[n - 1].pid in dead then 1 else 0)
  }

  class ReaderRegistry {
    const slots: array<ReaderSlot>

    constructor (count: nat)
      ensures fresh(slots) && slots.Length == count
      ensures forall i :: 0 <= i < count ==> slots[i] == ReaderSlot(0, false, 0)
    {
      slots := new ReaderSlot[count](_ => ReaderSlot(0, false, 0));
    }

    /** Takes the first slot that is free or whose process is dead. */
    method Register(pid: nat, cursor: nat, dead: set<nat>) returns (taken: Option<nat>)
      requires pid != 0 && pid !in dead
      modifies slots
      ensures taken.Some? ==> taken.value < slots.Length
                              && slots[..] == old(slots[..])[taken.value := ReaderSlot(pid, true, cursor)]
      ensures taken.None? ==> slots[..] == old(slots[..])
      ensures forall i :: 0 <= i < (if taken.Some? then taken.value else slots.Length) ==> !Takeable(old(slots[i]), dead)
      ensures taken.Some? ==> Takeable(old(slots[..])[taken.value], dead)
    {
      var i := 0;
      while i < slots.Length
        invariant 0 <= i <= slots.Length && slots[..] == old(slots[..])
        invariant forall j :: 0 <= j < i ==> !Takeable(slots[j], dead)
      {
        if slots[i].pid == 0 || slots[i].pid in dead {
          slots[i] := slots[i].(pid := pid);
          slots[i] := slots[i].(active := false);
          slots[i] := slots[i].(cursor := cursor);
          slots[i] := slots[i].(active := true);
          return Some(i);
        }
        i := i + 1;
      }
      taken := None;
    }

    method UpdateCursor(i: nat, cursor: nat)
      requires i < slots.Length
      modifies slots
      ensures slots[..] == old(slots[..])[i := old(slots[i]).(cursor := cursor)]
    {
      slots[i] := slots[i].(cursor := cursor);
    }

    /** Dropping a registration; if someone else has taken the slot meanwhile, the owner stays. */
    method Drop(i: nat, pid: nat)
      requires i < slots.Length
      modifies slots
      ensures slots[..] == old(slots[..])[i := ReaderSlot(if old(slots[i]).pid == pid then 0 else old(slots[i]).pid,
                                                          false, old(slots[i]).cursor)]
    {
      slots[i] := slots[i].(active := false);
      if slots[i].pid == pid { slots[i] := slots[i].(pid := 0); }
    }

    method PruneDeadReaders(dead: set<nat>) returns (pruned: nat)
      requires 0 !in dead
      modifies slots
      ensures slots[..] == Pruned(old(slots[..]), dead)
      ensures pruned == DeadSlots(old(slots[..]), dead, slots.Length)
    {
      pruned := 0;
      var i := 0;
      while i < slots.Length
        invariant 0 <= i <= slots.Length
        invariant forall j :: 0 <= j < i ==> slots[j] == Pruned(old(slots[..]), dead)[j]
        invariant forall j :: i <= j < slots.Length ==> slots[j] == old(slots[..])[j]
        invariant pruned == DeadSlots(old(slots[..]), dead, i)
      {
        if slots[i].pid != 0 && slots[i].pid in dead {
          slots[i] := slots[i].(pid := 0);
          pruned := pruned + 1;
        }
        i := i + 1;
      }
    }

    /** The smallest cursor among the active slots. */
    method MinCursor() returns (min: Option<nat>)
      ensures min == MinFrom(slots[..], 0, None)
    {
      min := None;
      var i := 0;
      while i < slots.Length
        invariant 0 <= i <= slots.Length
        invariant MinFrom(slots[..], 0, None) == MinFrom(slots[..], i, min)
      {
        if slots[i].active && slots[i].pid != 0 {
          var cursor := slots[i].cursor;
          min := Some(if min.Some? && min.value < cursor then min.value else cursor);
        }
        i := i + 1;
      }
    }

    /** How many messages can be written before the slowest active reader loses one: no more than
        that for every such reader, and exactly that for one of them unless the ring is full or
        nobody is behind. */
    method Headroom(writeSeq: nat, cap: nat, dead: set<nat>) returns (room: nat)
      requires 0 !in dead
      modifies slots
      ensures slots[..] == Pruned(old(slots[..]), dead) && room <= cap
      ensures forall i :: 0 <= i < slots.Length && Active(slots[i]) && room > 0 ==> writeSeq + room < Max(slots[i].cursor, 1) + cap
      ensures room == cap
              || exists i :: 0 <= i < slots.Length && Active(slots[i]) && writeSeq + room + 1 >= Max(slots[i].cursor, 1) + cap
    {
      var _ := PruneDeadReaders(dead);
      var min := MinCursor();
      match min
      case None => room := cap;
      case Some(m) =>
        var below := if m >= 1 then m - 1 else 0;
        var unread := if writeSeq >= below then writeSeq - below else 0;
        room := if cap >= unread then cap - unread else 0;
    }
  }
}
