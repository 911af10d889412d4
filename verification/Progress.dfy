/** A lossless producer that waits for room can always be let go on by its readers reading on: no
    process has to die or leave for it. */
module Progress {
  import opened Basics
  import opened SlotProtocol
  import opened Lossless
  import opened Backpressure
  import opened Receiving
  import C = Consumer

  // ------------------------------------------------------------------ a reader reads on

  /** Reading on while the writer stands still, a reader catches up with everything a full ring
      behind. */
  lemma {:induction false} CatchesUp(r: Ring, c: C.Consumer) returns (c': C.Consumer, n: nat)
    requires Still(r, false) && C.ConsumerOk(r, c)
    ensures ActsTo(r, c, c', false, n) && C.ConsumerOk(r, c') && c'.cursor + r.cap > r.top + 1
    decreases r.top + 1 - c.cursor
  {
    if c.cursor + r.cap > r.top + 1 {
      c', n := c, 0;
    } else {
      var d := Onwards(r, c, false);
      var m: nat :| ActsTo(r, c, d, false, m);
      var k: nat;
      c', k := CatchesUp(r, d);
      ActsJoin(r, c, d, c', false, m, k);
      n := m + k;
    }
  }

  // ------------------------------------------------------------------ runs that go on

  /** What a reader does in `recv` and in storing its cursor, what a new owner does to a stale entry,
      the release of a dead process's slot, and the scans of the waiting producer: no reader comes,
      leaves or dies, and nothing is written. */
  predicate Helps(step: Step) {
    match step
    case Produce(p) => p.StartScan? || p.ScanLoad? || p.EndScan?
    case Read(_, r) => r.Receive? || r.Store? || r.Hide?
    case Crash(_) => false
    case Reclaim(_) => true
  }

  ghost predicate Move(s: System, t: System) { exists step :: Helps(step) && NextStep(s, t, step) }

  ghost predicate MoveAt(run: seq<System>, i: nat)
    requires 0 < i < |run|
  {
    Move(run[i - 1], run[i])
  }

  /** A run that goes on from another one by such moves alone. */
  ghost predicate GoesOn(run: seq<System>, more: seq<System>) {
    Run(run) && Run(more) && run <= more && forall i :: |run| <= i < |more| ==> MoveAt(more, i)
  }

  function Last(run: seq<System>): System
    requires run != []
  {
    run[|run| - 1]
  }

  lemma GoesOnFurther(a: seq<System>, b: seq<System>, c: seq<System>)
    requires GoesOn(a, b) && GoesOn(b, c)
    ensures GoesOn(a, c)
  {
    forall i | |a| <= i < |c| ensures MoveAt(c, i) {
      if i < |b| { assert MoveAt(b, i) && c[i - 1] == b[i - 1] && c[i] == b[i]; }
    }
  }

  lemma Moves(run: seq<System>, t: System, step: Step)
    requires Run(run) && Helps(step) && NextStep(Last(run), t, step)
    ensures GoesOn(run, run + [t]) && Last(run + [t]) == t
  {
    var more := run + [t];
    forall i | 0 < i < |more| ensures StepAt(more, i) {
      if i < |run| { assert StepAt(run, i); } else { assert Steps(Last(run), t); }
    }
    assert Move(Last(run), t);
  }

  lemma LastOk(run: seq<System>)
    requires Run(run)
    ensures Inv(Last(run)) && AllOwned(Last(run))
  {
    RunKeeps(run, |run| - 1);
    RunKeepsOwners(run, |run| - 1);
  }

  // ------------------------------------------------------------------ one slot stops holding up

  /** A live reader registered in slot `k`. */
  predicate UsesSlot(s: System, id: nat, k: nat) {
    id in s.readers && Alive(s, s.readers[id]) && s.readers[id].phase == Registered(k)
  }

  lemma {:induction false} Receives(run: seq<System>, id: nat, k: nat, c: C.Consumer, n: nat) returns (more: seq<System>)
    requires Run(run) && UsesSlot(Last(run), id, k) && ActsTo(Last(run).ring, Last(run).readers[id].consumer, c, false, n)
    ensures GoesOn(run, more)
    ensures var s := Last(run); Last(more) == s.(readers := s.readers[id := s.readers[id].(consumer := c)])
    decreases n
  {
    var s := Last(run);
    if n == 0 {
      more := run;
      assert s.readers == s.readers[id := s.readers[id].(consumer := c)];
    } else {
      var d := C.Act(s.ring, s.readers[id].consumer, false);
      var u := Moved(s, id, s.readers[id].(consumer := d));
      Moves(run, u, Read(id, Receive));
      more := Receives(run + [u], id, k, c, n - 1);
      GoesOnFurther(run, run + [u], more);
      assert Last(more).readers == s.readers[id := s.readers[id].(consumer := c)];
    }
  }

  /** Slot `k` does not keep the gate shut. */
  predicate Clear(s: System, k: nat)
    requires k < |s.slots|
  {
    s.slots[k].active && s.slots[k].pid != 0 ==> s.slots[k].cursor + s.ring.cap > s.ring.top + 1
  }

  /** Slot `k` has been cleared, and only readers changed besides. */
  predicate Cleared(s: System, t: System, k: nat)
    requires k < |s.slots|
  {
    && t.ring == s.ring && t.producer == s.producer && |t.slots| == |s.slots| && Clear(t, k)
    && forall i :: 0 <= i < |s.slots| && i != k ==> t.slots[i] == s.slots[i]
  }

  lemma Reclaims(run: seq<System>, k: nat) returns (more: seq<System>)
    requires Run(run) && k < |Last(run).slots| && Last(run).slots[k].pid != 0 && Last(run).slots[k].pid in Last(run).dead
    ensures GoesOn(run, more) && Cleared(Last(run), Last(more), k)
  {
    var s := Last(run);
    var t := Stored(s, k, s.slots[k].(pid := 0));
    Moves(run, t, Reclaim(k));
    more := run + [t];
  }

  lemma Hides(run: seq<System>, k: nat, id: nat) returns (more: seq<System>)
    requires Run(run) && Shape(Last(run).ring) && k < |Last(run).slots|
    requires OwnedBy(Last(run), k, id) && Last(run).readers[id].phase.Claimed?
    ensures GoesOn(run, more) && Cleared(Last(run), Last(more), k)
  {
    var s := Last(run);
    var r := s.readers[id];
    var t := Moved(Stored(s, k, s.slots[k].(active := false)), id, r.(phase := Hidden(k)));
    Moves(run, t, Read(id, Hide));
    more := run + [t];
  }

  lemma Stores(run: seq<System>, k: nat, id: nat) returns (more: seq<System>)
    requires Run(run) && Shape(Last(run).ring) && k < |Last(run).slots| && UsesSlot(Last(run), id, k)
    requires Last(run).readers[id].consumer.cursor + Last(run).ring.cap > Last(run).ring.top + 1
    ensures GoesOn(run, more) && Cleared(Last(run), Last(more), k)
  {
    var s := Last(run);
    var t := Stored(s, k, s.slots[k].(cursor := s.readers[id].consumer.cursor));
    Moves(run, t, Read(id, Store));
    more := run + [t];
  }

  /** While the producer waits its ring stands still, and a reader knows what it read. */
  lemma RingStandsStill(run: seq<System>, id: nat)
    requires Run(run) && Last(run).producer.waiting && id in Last(run).readers && Alive(Last(run), Last(run).readers[id])
    ensures Still(Last(run).ring, false) && C.ConsumerOk(Last(run).ring, Last(run).readers[id].consumer)
  {
    LastOk(run);
    assert ReaderOk(Last(run), Last(run).readers[id]);
  }

  /** A registered reader reads on and stores its cursor. */
  lemma ReadsOn(run: seq<System>, k: nat, id: nat) returns (more: seq<System>)
    requires Run(run) && Last(run).producer.waiting && k < |Last(run).slots| && UsesSlot(Last(run), id, k)
    ensures GoesOn(run, more) && Cleared(Last(run), Last(more), k)
  {
    RingStandsStill(run, id);
    var c, n := CatchesUp(Last(run).ring, Last(run).readers[id].consumer);
    var mid := Receives(run, id, k, c, n);
    more := Stores(mid, k, id);
    GoesOnFurther(run, mid, more);
  }

  /** An active entry of a live process belongs to a reader about to hide it or registered with it. */
  lemma EntryHasUser(run: seq<System>, k: nat) returns (id: nat)
    requires Run(run) && k < |Last(run).slots|
    requires var e := Last(run).slots[k]; e.active && e.pid != 0 && e.pid !in Last(run).dead
    ensures Shape(Last(run).ring) && OwnedBy(Last(run), k, id)
    ensures Last(run).readers[id].phase.Claimed? || UsesSlot(Last(run), id, k)
  {
    var s := Last(run);
    LastOk(run);
    assert SlotOwned(s, k);
    id :| OwnedBy(s, k, id);
    assert ReaderOk(s, s.readers[id]);
  }

  lemma ClearsSlot(run: seq<System>, k: nat) returns (more: seq<System>)
    requires Run(run) && Last(run).producer.waiting && k < |Last(run).slots|
    ensures GoesOn(run, more) && Cleared(Last(run), Last(more), k)
  {
    var s := Last(run);
    if Clear(s, k) {
      more := run;
    } else if s.slots[k].pid in s.dead {
      more := Reclaims(run, k);
    } else {
      var id := EntryHasUser(run, k);
      if s.readers[id].phase.Claimed? { more := Hides(run, k, id); } else { more := ReadsOn(run, k, id); }
    }
  }

  predicate AllClear(s: System, k: nat)
    requires k <= |s.slots|
  {
    forall i :: 0 <= i < k ==> Clear(s, i)
  }

  lemma OneMoreClear(s: System, t: System, k: nat)
    requires k < |s.slots| && AllClear(s, k) && Cleared(s, t, k)
    ensures AllClear(t, k + 1)
  {
    forall i | 0 <= i < k + 1 ensures Clear(t, i) {
      if i < k { assert Clear(s, i); }
    }
  }

  /** Slot after slot. */
  lemma {:induction false} ClearsFrom(run: seq<System>, k: nat) returns (more: seq<System>)
    requires Run(run) && Last(run).producer.waiting && k <= |Last(run).slots| && AllClear(Last(run), k)
    ensures GoesOn(run, more) && Last(more).ring == Last(run).ring && Last(more).producer == Last(run).producer
    ensures AllClear(Last(more), |Last(more).slots|)
    decreases |Last(run).slots| - k
  {
    if k == |Last(run).slots| {
      more := run;
    } else {
      var mid := ClearsSlot(run, k);
      OneMoreClear(Last(run), Last(mid), k);
      more := ClearsFrom(mid, k + 1);
      GoesOnFurther(run, mid, more);
    }
  }

  // ------------------------------------------------------------------ a scan runs to its end

  lemma {:induction false} Scans(run: seq<System>) returns (more: seq<System>)
    requires Run(run) && Shape(Last(run).ring) && Last(run).producer.pc.Scanning?
    requires Last(run).producer.pc.k <= |Last(run).slots|
    ensures GoesOn(run, more) && Last(more) == Finished(Last(run))
    ensures var (s, t) := (Last(run), Last(more));
            && t.ring == s.ring && t.slots == s.slots && t.producer.waiting == s.producer.waiting
            && t.producer.pc.Scanning? && t.producer.pc.k == |s.slots|
    decreases |Last(run).slots| - Last(run).producer.pc.k, 2 - Stage(Last(run).producer.pc.load)
  {
    var s := Last(run);
    if s.producer.pc.k == |s.slots| {
      more := run;
    } else {
      var u := Scanned(s);
      Moves(run, u, Produce(ScanLoad));
      more := Scans(run + [u]);
      GoesOnFurther(run, run + [u], more);
    }
  }

  /** The state after the end of a scan. */
  function Ended(s: System): System
    requires s.producer.pc.Scanning?
  {
    var gate := Limit(s.producer.pc.min, s.ring.top + 1, s.ring.cap);
    s.(producer := Producer(Running, gate, s.producer.waiting && s.ring.top + 1 >= gate))
  }

  /** Whatever a scan in progress has seen, it ends. */
  lemma ScanEnds(run: seq<System>) returns (more: seq<System>)
    requires Run(run) && Shape(Last(run).ring) && Last(run).producer.pc.Scanning?
    requires Last(run).producer.pc.k <= |Last(run).slots|
    ensures GoesOn(run, more) && Last(more).ring == Last(run).ring
    ensures Finished(Last(run)).producer.pc.Scanning? && Last(more) == Ended(Finished(Last(run)))
  {
    var mid := Scans(run);
    var t := Ended(Last(mid));
    Moves(mid, t, Produce(EndScan));
    more := mid + [t];
    GoesOnFurther(run, mid, more);
  }

  /** With no slot a full ring behind, the limit is past the next message. */
  lemma AllClearMeansRoom(s: System)
    requires AllClear(s, |s.slots|)
    ensures s.ring.top + 1 < Limit(MinFrom(s.slots, 0, None), s.ring.top + 1, s.ring.cap)
  {
    var m := MinFrom(s.slots, 0, None);
    if m.Some? {
      var i :| 0 <= i < |s.slots| && s.slots[i].active && s.slots[i].pid != 0 && s.slots[i].cursor == m.value;
      assert Clear(s, i);
    }
  }

  lemma ScanOpens(run: seq<System>) returns (more: seq<System>)
    requires Run(run) && Shape(Last(run).ring) && Last(run).ring.writer.Quiet? && Last(run).producer.pc.Running?
    requires AllClear(Last(run), |Last(run).slots|)
    ensures GoesOn(run, more) && !Last(more).producer.waiting && Last(more).ring == Last(run).ring
  {
    var s := Last(run);
    var u := s.(producer := s.producer.(pc := Scanning(0, LoadActive, None)));
    Moves(run, u, Produce(StartScan));
    ScanComputesMin(u);
    AllClearMeansRoom(s);
    more := ScanEnds(run + [u]);
    GoesOnFurther(run, run + [u], more);
  }

  lemma WaitingMeansQuiet(run: seq<System>)
    requires Run(run) && Last(run).producer.waiting
    ensures Shape(Last(run).ring) && Last(run).ring.writer.Quiet?
    ensures Last(run).producer.pc.Scanning? ==> Last(run).producer.pc.k <= |Last(run).slots|
  {
    LastOk(run);
  }

  lemma BetweenScans(run: seq<System>) returns (more: seq<System>)
    requires Run(run) && Last(run).producer.waiting && Last(run).producer.pc.Running?
    ensures GoesOn(run, more) && !Last(more).producer.waiting && Last(more).ring == Last(run).ring
  {
    var mid := ClearsFrom(run, 0);
    WaitingMeansQuiet(mid);
    more := ScanOpens(mid);
    GoesOnFurther(run, mid, more);
  }

  /** Every run that has come to a producer waiting for room can go on, by finitely many receives
      and cursor stores of the readers there are, hidings of stale entries, releases of dead
      processes' slots and loads of the producer's own scans, to where it waits no longer: no reader
      has to leave or die for that, and the ring is as it was. */
  lemma WaitingCanEnd(run: seq<System>)
    requires Run(run) && run[|run| - 1].producer.waiting
    ensures exists more :: GoesOn(run, more) && !Last(more).producer.waiting && Last(more).ring == Last(run).ring
  {
    WaitingMeansQuiet(run);
    var mid := run;
    if Last(run).producer.pc.Scanning? { mid := ScanEnds(run); }
    if Last(mid).producer.waiting {
      var more := BetweenScans(mid);
      GoesOnFurther(run, mid, more);
    }
  }

  // ------------------------------------------------------------------ when it waits

  ghost predicate Can(s: System, step: ProducerStep) { exists t :: ProducerNext(s, t, step) }

  /** Between messages the cached gate alone decides: the producer can begin the next message exactly
      when that lies below the gate, and begins to wait, announcing everything, exactly when not. */
  lemma GateDecides(run: seq<System>, item: seq<int>)
    requires Run(run) && Last(run).producer.pc.Running? && !Last(run).producer.waiting
    requires Last(run).ring.writer.Quiet? && |item| == Last(run).ring.width
    ensures var s := Last(run);
            && (Can(s, Write(Begin(s.ring.top + 1, item))) <==> s.ring.top + 1 < s.producer.gate)
            && (Can(s, Block) <==> s.ring.top + 1 >= s.producer.gate)
            && forall t :: ProducerNext(s, t, Block) ==> t.producer.waiting && t.ring.writeSeq == t.ring.top
  {
    LastOk(run);
    var s := Last(run);
    if s.ring.top + 1 < s.producer.gate {
      assert ProducerNext(s, s.(ring := Begun(s.ring, item)), Write(Begin(s.ring.top + 1, item)));
    } else {
      assert ProducerNext(s, s.(ring := s.ring.(writeSeq := s.ring.top), producer := s.producer.(waiting := true)), Block);
    }
  }

  // ------------------------------------------------------------------ registering

  lemma Appends(run: seq<System>, t: System, step: Step)
    requires Run(run) && NextStep(Last(run), t, step)
    ensures Run(run + [t]) && Last(run + [t]) == t
  {
    var more := run + [t];
    forall i | 0 < i < |more| ensures StepAt(more, i) {
      if i < |run| { assert StepAt(run, i); } else { assert Steps(Last(run), t); }
    }
  }

  /** Reader `id` in phase `phase` and its slot as `slot`, everything else as in `s`. */
  function InPhase(s: System, id: nat, phase: Phase, i: nat, slot: ReaderSlot): System
    requires id in s.readers && i < |s.slots|
  {
    s.(readers := s.readers[id := s.readers[id].(phase := phase)], slots := s.slots[i := slot])
  }

  /** The slot, free or left by a dead process, is taken and hidden. */
  lemma ClaimsSlot(run: seq<System>, id: nat, i: nat) returns (more: seq<System>)
    requires Run(run) && Shape(Last(run).ring) && id in Last(run).readers && Alive(Last(run), Last(run).readers[id])
    requires Last(run).readers[id].phase.Starting? && i < |Last(run).slots|
    requires Last(run).slots[i].pid == 0 || Last(run).slots[i].pid in Last(run).dead
    ensures Run(more) && run <= more
    ensures var s := Last(run);
            Last(more) == InPhase(s, id, Hidden(i), i, s.slots[i].(pid := s.readers[id].pid, active := false))
  {
    var s := Last(run);
    var r, e := s.readers[id], s.slots[i];
    var a := InPhase(s, id, Phase.Loaded(i, e.pid), i, e);
    assert a == Moved(s, id, r.(phase := Phase.Loaded(i, e.pid)));
    Appends(run, a, Read(id, Probe(i)));
    var b := InPhase(s, id, Phase.Claimed(i), i, e.(pid := r.pid));
    Appends(run + [a], b, Read(id, ReaderStep.Claim(true)));
    var c := InPhase(s, id, Hidden(i), i, e.(pid := r.pid, active := false));
    Appends(run + [a] + [b], c, Read(id, Hide));
    more := run + [a] + [b] + [c];
  }

  /** Then its cursor is put in place and it is made active. */
  lemma ActivatesSlot(run: seq<System>, id: nat, i: nat) returns (more: seq<System>)
    requires Run(run) && Shape(Last(run).ring) && id in Last(run).readers && Alive(Last(run), Last(run).readers[id])
    requires i < |Last(run).slots| && Last(run).readers[id].phase == Hidden(i)
    ensures Run(more) && run <= more
    ensures var s := Last(run); var r := s.readers[id];
            && Last(more).slots == s.slots[i := s.slots[i].(cursor := r.consumer.cursor, active := true)]
            && Last(more) == s.(slots := Last(more).slots,
                                readers := s.readers[id := r.(phase := Registered(i), since := s.ring.top)])
  {
    var s := Last(run);
    var r, e := s.readers[id], s.slots[i];
    var a := InPhase(s, id, Placed(i), i, e.(cursor := r.consumer.cursor));
    Appends(run, a, Read(id, Place));
    var b := Moved(Stored(a, i, a.slots[i].(active := true)), id, a.readers[id].(phase := Registered(i), since := s.ring.top));
    Appends(run + [a], b, Read(id, Activate));
    more := run + [a] + [b];
  }

  /** Reader `id` has registered in slot `i`, and nothing else has happened. */
  predicate RegisteredIn(s: System, t: System, id: nat, i: nat)
    requires id in s.readers && i < |s.slots|
  {
    var r := s.readers[id];
    && t.slots == s.slots[i := ReaderSlot(r.pid, true, r.consumer.cursor)]
    && t == s.(slots := t.slots, readers := s.readers[id := r.(phase := Registered(i), since := s.ring.top)])
  }

  /** A probe that found its slot taken is given up. */
  lemma LooksFurther(run: seq<System>, id: nat) returns (more: seq<System>)
    requires Run(run) && Shape(Last(run).ring) && id in Last(run).readers && Alive(Last(run), Last(run).readers[id])
    requires Last(run).readers[id].phase.Loaded?
    ensures Run(more) && run <= more
    ensures var s := Last(run); Last(more) == Moved(s, id, s.readers[id].(phase := Starting))
  {
    var s := Last(run);
    var t := Moved(s, id, s.readers[id].(phase := Starting));
    Appends(run, t, Read(id, ReaderStep.Claim(false)));
    more := run + [t];
  }

  /** A reader that looks for a slot can register in any that is free or whose process is dead, by steps
      of its own: the slot then names its process, holds its cursor and counts as active, and nothing
      else has changed. */
  lemma ReaderCanRegister(run: seq<System>, id: nat, i: nat)
    requires Run(run) && id in Last(run).readers && Alive(Last(run), Last(run).readers[id])
    requires Last(run).readers[id].phase.Starting? || Last(run).readers[id].phase.Loaded?
    requires i < |Last(run).slots|
    requires Last(run).slots[i].pid == 0 || Last(run).slots[i].pid in Last(run).dead
    ensures exists more :: Run(more) && run <= more && RegisteredIn(Last(run), Last(more), id, i)
  {
    LastOk(run);
    var start := run;
    if Last(run).readers[id].phase.Loaded? { start := LooksFurther(run, id); }
    var mid := ClaimsSlot(start, id, i);
    var more := ActivatesSlot(mid, id, i);
    assert run <= more;
  }

  /** And one that is registered can leave: its slot is then inactive and free, and nothing else has
      changed. */
  lemma ReaderCanLeave(run: seq<System>, id: nat)
    requires Run(run) && id in Last(run).readers && Alive(Last(run), Last(run).readers[id])
    requires Last(run).readers[id].phase.Registered? && Last(run).readers[id].phase.i < |Last(run).slots|
    ensures exists more :: Run(more) && run <= more && LeftSlot(Last(run), Last(more), id)
  {
    LastOk(run);
    var s := Last(run);
    var r, i := s.readers[id], s.readers[id].phase.i;
    assert ReaderOk(s, r);
    var a := Moved(Stored(s, i, s.slots[i].(active := false)), id, r.(phase := Leaving(i), covered := None));
    Appends(run, a, Read(id, Leave));
    var b := Moved(Stored(a, i, a.slots[i].(pid := 0)), id, a.readers[id].(phase := Released));
    Appends(run + [a], b, Read(id, Release));
    assert run <= run + [a] + [b];
  }

  /** Reader `id` has given its slot back, and nothing else has happened. */
  predicate LeftSlot(s: System, t: System, id: nat)
    requires id in s.readers && s.readers[id].phase.Registered? && s.readers[id].phase.i < |s.slots|
  {
    var r, i := s.readers[id], s.readers[id].phase.i;
    && t.slots == s.slots[i := s.slots[i].(active := false, pid := 0)]
    && t == s.(slots := t.slots, readers := s.readers[id := r.(phase := Released, covered := None)])
  }
}
