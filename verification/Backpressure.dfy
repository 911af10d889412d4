/** A lossless producer that waits for headroom does not deadlock with its readers. */
module Backpressure {
  import opened Modular
  import opened SlotProtocol
  import opened Basics
  import opened Lossless

  // ------------------------------------------------------------------ what a scan computes

  /** The smallest cursor among the active slots from `k` on, and `min`. */
  function MinFrom(slots: seq<ReaderSlot>, k: nat, min: Option<nat>): (m: Option<nat>)
    requires k <= |slots|
    ensures min.Some? ==> m.Some? && m.value <= min.value
    ensures forall i :: k <= i < |slots| && slots[i].active && slots[i].pid != 0 ==> m.Some? && m.value <= slots[i].cursor
    ensures m.Some? ==> (min.Some? && m == min) || exists i :: k <= i < |slots| && slots[i].active && slots[i].pid != 0 && slots[i].cursor == m.value
    decreases |slots| - k
  {
    if k == |slots| then min
    else MinFrom(slots, k + 1, if slots[k].active && slots[k].pid != 0 then Smaller(min, slots[k].cursor) else min)
  }

  predicate Active(slot: ReaderSlot) { slot.active && slot.pid != 0 }

  /** Half a ring ahead of the next sequence, but no further than the slowest active reader allows. */
  ghost predicate GateFrom(slots: seq<ReaderSlot>, gate: nat, next: nat, cap: nat) {
    && gate <= next + Max(cap / 2, 1)
    && (forall i :: 0 <= i < |slots| && Active(slots[i]) ==> gate <= slots[i].cursor + cap)
    && (gate == next + Max(cap / 2, 1)
        || exists i :: 0 <= i < |slots| && Active(slots[i]) && gate == slots[i].cursor + cap)
  }

  /** What remains of a scan while nobody else moves. */
  function Finished(s: System): System
    requires s.producer.pc.Scanning? && s.producer.pc.k <= |s.slots|
    decreases |s.slots| - s.producer.pc.k, 2 - Stage(s.producer.pc.load)
  {
    if s.producer.pc.k == |s.slots| then s else Finished(Scanned(s))
  }

  function Stage(l: Load): nat { match l case LoadActive => 0 case LoadPid => 1 case LoadCursor => 2 }

  /** What a scan has to remember about the slot it is in the middle of. */
  predicate MidSlotOk(s: System) {
    var pc := s.producer.pc;
    pc.Scanning? && pc.k <= |s.slots| &&
    (pc.k < |s.slots| && !pc.load.LoadActive? ==> s.slots[pc.k].active) &&
    (pc.k < |s.slots| && pc.load.LoadCursor? ==> s.slots[pc.k].pid != 0)
  }

  /** Left alone, a scan ends with the smallest cursor of the active slots. */
  lemma {:induction false} ScanComputesMin(s: System)
    requires MidSlotOk(s)
    ensures Finished(s).producer.pc.Scanning? && Finished(s).producer.pc.k == |s.slots|
    ensures Finished(s).producer.pc.min == MinFrom(s.slots, s.producer.pc.k, s.producer.pc.min)
    ensures Finished(s).slots == s.slots && Finished(s).ring == s.ring && Finished(s).producer.waiting == s.producer.waiting
    decreases |s.slots| - s.producer.pc.k, 2 - Stage(s.producer.pc.load)
  {
    if s.producer.pc.k < |s.slots| { ScanComputesMin(Scanned(s)); }
  }

  // ------------------------------------------------------------------ owners

  ghost predicate OwnedBy(s: System, i: nat, id: nat) {
    id in s.readers && Alive(s, s.readers[id]) && Owns(s.readers[id].phase) && s.readers[id].phase.i == i
  }

  /** A slot that names a live process belongs to one of its readers. */
  ghost predicate SlotOwned(s: System, i: nat)
    requires i < |s.slots|
  {
    s.slots[i].pid != 0 && s.slots[i].pid !in s.dead ==> exists id :: OwnedBy(s, i, id)
  }

  ghost predicate AllOwned(s: System) { forall i :: 0 <= i < |s.slots| ==> SlotOwned(s, i) }

  lemma ProducerKeepsOwner(s: System, s': System, step: ProducerStep, i: nat)
    requires ProducerNext(s, s', step) && i < |s.slots| && SlotOwned(s, i)
    ensures i < |s'.slots| && SlotOwned(s', i)
  {
    if s'.slots[i].pid != 0 && s'.slots[i].pid !in s'.dead {
      var id :| OwnedBy(s, i, id);
      assert OwnedBy(s', i, id);
    }
  }

  lemma OwnerIsNamed(s: System, i: nat, x: nat)
    requires Inv(s) && i < |s.slots| && OwnedBy(s, i, x)
    ensures s.slots[i].pid == s.readers[x].pid
  {
    assert ReaderOk(s, s.readers[x]);
  }

  lemma OwnerStays(s: System, s': System, id: nat, step: ReaderStep, i: nat, x: nat)
    requires ReaderNext(s, s', id, step) && i < |s.slots| && OwnedBy(s, i, x) && s.slots[i].pid == s.readers[x].pid
    requires i < |s'.slots| && s'.slots[i].pid != 0 && !(step.Claim? && step.ok && s.readers[id].phase.i == i)
    ensures OwnedBy(s', i, x)
  {
  }

  lemma ReaderKeepsOwner(s: System, s': System, id: nat, step: ReaderStep, i: nat)
    requires Inv(s) && ReaderNext(s, s', id, step) && i < |s.slots| && SlotOwned(s, i)
    ensures i < |s'.slots| && SlotOwned(s', i)
  {
    if s'.slots[i].pid != 0 && s'.slots[i].pid !in s'.dead {
      if step.Claim? && step.ok && s.readers[id].phase.i == i {
        assert OwnedBy(s', i, id);
      } else {
        var x :| OwnedBy(s, i, x);
        OwnerIsNamed(s, i, x);
        OwnerStays(s, s', id, step, i, x);
      }
    }
  }

  lemma StepKeepsOwners(s: System, s': System, step: Step)
    requires Inv(s) && NextStep(s, s', step) && AllOwned(s)
    ensures AllOwned(s')
  {
    forall i | 0 <= i < |s'.slots| ensures SlotOwned(s', i) {
      assert SlotOwned(s, i);
      match step
      case Produce(p) => ProducerKeepsOwner(s, s', p, i);
      case Read(id, r) => ReaderKeepsOwner(s, s', id, r, i);
      case _ =>
        if s'.slots[i].pid != 0 && s'.slots[i].pid !in s'.dead {
          var id :| OwnedBy(s, i, id);
          assert ReaderOk(s, s.readers[id]);
          assert OwnedBy(s', i, id);
        }
    }
  }

  lemma {:induction false} RunKeepsOwners(run: seq<System>, i: nat)
    requires Run(run) && i < |run|
    ensures AllOwned(run[i])
  {
    if i > 0 {
      RunKeepsOwners(run, i - 1);
      RunKeeps(run, i - 1);
      assert StepAt(run, i);
      var step :| NextStep(run[i - 1], run[i], step);
      StepKeepsOwners(run[i - 1], run[i], step);
    }
  }

  // ------------------------------------------------------------------ who can let the producer go on

  /** Slot `i` keeps the gate shut, and someone can move: the slot's process is dead, its owner is
      about to hide a stale entry, has read on and will store so, has the message at its cursor
      there to read, or finds itself already lapped and skips ahead. */
  ghost predicate HoldsUp(s: System, i: nat)
    requires Shape(s.ring) && i < |s.slots|
  {
    && s.slots[i].active && s.slots[i].pid != 0 && s.slots[i].cursor + s.ring.cap <= s.ring.top + 1
    && (s.slots[i].pid in s.dead || exists id :: OwnedBy(s, i, id) && CanMove(s, i, s.readers[id]))
  }

  predicate CanMove(s: System, i: nat, r: Reader)
    requires Shape(s.ring) && i < |s.slots|
  {
    || r.phase.Claimed?
    || (&& r.phase.Registered?
        && (|| s.slots[i].cursor < r.consumer.cursor
            || (Safe(s.ring, r.consumer) && r.consumer.cursor + s.ring.cap == s.ring.top + 1
                && r.consumer.cursor <= s.ring.writeSeq && Readable(s.ring, r.consumer.cursor))
            || r.consumer.cursor + s.ring.cap <= s.ring.writeSeq))
  }

  lemma OwnerCanMove(s: System, i: nat, id: nat)
    requires Inv(s) && s.producer.waiting && i < |s.slots| && OwnedBy(s, i, id)
    requires s.slots[i].active && s.slots[i].cursor + s.ring.cap <= s.ring.top + 1
    ensures CanMove(s, i, s.readers[id])
  {
    var r := s.readers[id];
    assert ReaderOk(s, r);
    if r.phase.Registered? && s.slots[i].cursor == r.consumer.cursor && Safe(s.ring, r.consumer) {
      DenseGone(s.ring, r.consumer.cursor);
    }
  }

  lemma ShutGateHasCause(s: System)
    requires Inv(s) && AllOwned(s) && s.producer.waiting
    requires s.ring.top + 1 >= Limit(MinFrom(s.slots, 0, None), s.ring.top + 1, s.ring.cap)
    ensures exists i :: 0 <= i < |s.slots| && HoldsUp(s, i)
  {
    var m := MinFrom(s.slots, 0, None);
    var i :| 0 <= i < |s.slots| && s.slots[i].active && s.slots[i].pid != 0 && s.slots[i].cursor == m.value;
    if s.slots[i].pid !in s.dead {
      assert SlotOwned(s, i);
      var id :| OwnedBy(s, i, id);
      OwnerCanMove(s, i, id);
    }
    assert HoldsUp(s, i);
  }

  /** Whenever the producer is in its wait loop, even mid-batch, everything written is announced;
      and either the next scan of the slots as they stand opens the gate, or some slot sits a full
      ring behind whose process is dead or whose reader can move on, in particular with a message
      there to read. */
  lemma BlockedProducerIsNotDeadlocked(run: seq<System>, i: nat)
    requires Run(run) && i < |run| && run[i].producer.waiting
    ensures Shape(run[i].ring) && run[i].ring.writeSeq == run[i].ring.top && run[i].ring.writer.Quiet?
    ensures var s := run[i];
            || (forall k :: 0 <= k < |s.slots| && Active(s.slots[k]) ==> s.ring.top + 1 < s.slots[k].cursor + s.ring.cap)
            || exists k :: 0 <= k < |s.slots| && HoldsUp(s, k)
  {
    RunKeeps(run, i);
    RunKeepsOwners(run, i);
    var s := run[i];
    if s.ring.top + 1 >= Limit(MinFrom(s.slots, 0, None), s.ring.top + 1, s.ring.cap) { ShutGateHasCause(s); }
  }

  /** A scan that nobody disturbs sets the gate from the smallest active cursor, and opens it if
      that allows the next message. */
  lemma UndisturbedScanOpensGate(s: System, t: System, e: System)
    requires Shape(s.ring) && ProducerNext(s, t, StartScan)
    requires t.producer.pc == Scanning(0, LoadActive, None) && ProducerNext(Finished(t), e, EndScan)
    ensures GateFrom(s.slots, e.producer.gate, s.ring.top + 1, s.ring.cap)
    ensures e.producer.gate == Limit(MinFrom(s.slots, 0, None), s.ring.top + 1, s.ring.cap)
    ensures e.producer.waiting <==> s.producer.waiting && s.ring.top + 1 >= e.producer.gate
  {
    ScanComputesMin(t);
  }

  // ------------------------------------------------------------------ a readable message can be read

  /** The rest of a slot read while the writer stands still. */
  function ReadOut(r: Ring, want: nat, rd: Read): Result
    requires Shape(r) && (rd.Copied? ==> |rd.buf| <= r.width)
    decreases if rd.Start? then r.width + 2 else if rd.Copied? then r.width + 1 - |rd.buf| else 0
  {
    if rd.Done? then rd.res else ReadOut(r, want, ReadStep(r, want, rd))
  }

  lemma {:induction false} ReadableIsRead(r: Ring, want: nat, rd: Read)
    requires RingOk(r) && want >= 1 && Readable(r, want) && ReadInv(r, want, rd) && !rd.Done?
    ensures want in r.hist && ReadOut(r, want, rd) == Result.Item(r.hist[want])
    decreases if rd.Start? then r.width + 2 else if rd.Copied? then r.width + 1 - |rd.buf| else 0
  {
    assert SlotOk(r, Ix(want, r.cap));
    var rd' := ReadStep(r, want, rd);
    ReadStepKeeps(r, want, rd);
    if !rd'.Done? { ReadableIsRead(r, want, rd'); }
  }
}
