/** Lossless flow control: readers register their cursors in shared slots, and the producer
    consults a cached limit that it recomputes by scanning those slots one load at a time. */
module Lossless {
  import opened SlotProtocol
  import C = Consumer
  import opened Basics

  datatype ReaderSlot = ReaderSlot(pid: nat, active: bool, cursor: nat)

  /** Where a reader is in `register`, in use, or in dropping its registration. */
  datatype Phase =
    | Starting
    | Loaded(i: nat, pid: nat)
    | Claimed(i: nat)
    | Hidden(i: nat)
    | Placed(i: nat)
    | Registered(i: nat)
    | Leaving(i: nat)
    | Released

  /** What a scan that read this reader's own cursor saw of the ring. */
  datatype Cover = Cover(from: nat, mark: nat)

  /** `since` is the ring's last claimed sequence when the registration became active. */
  datatype Reader = Reader(pid: nat, phase: Phase, consumer: C.Consumer, since: nat, covered: Option<Cover>)

  datatype Load = LoadActive | LoadPid | LoadCursor

  datatype Pc = Running | Scanning(k: nat, load: Load, min: Option<nat>)

  /** `waiting` while inside the loop of `wait_for_headroom`. */
  datatype Producer = Producer(pc: Pc, gate: nat, waiting: bool)

  /** `dead` lists processes that are gone; process identifiers are not used again. */
  datatype System = System(ring: Ring, slots: seq<ReaderSlot>, producer: Producer,
                           readers: map<nat, Reader>, dead: set<nat>)

  // ------------------------------------------------------------------ the producer

  function Window(cap: nat): nat { if cap / 2 >= 1 then cap / 2 else 1 }

  /** The limit `refresh_gate` computes for next sequence `next` from the smallest cursor seen: as
      far as the reader there allows, and never more than half a ring, or one message, ahead. */
  function Limit(min: Option<nat>, next: nat, cap: nat): (limit: nat)
    ensures limit <= next + Max(cap / 2, 1) && (min.Some? ==> limit <= min.value + cap)
    ensures limit == next + Max(cap / 2, 1) || (min.Some? && limit == min.value + cap)
  {
    if min.Some? && min.value + cap < next + Window(cap) then min.value + cap else next + Window(cap)
  }

  function Smaller(min: Option<nat>, n: nat): Option<nat> {
    if min.Some? && min.value < n then min else Some(n)
  }

  datatype ProducerStep =
    | Write(w: WriterStep)
    | Block
    | StartScan
    | ScanLoad
    | EndScan

  /** A write needs room below the cached gate; the wait loop announces everything first and then
      only scans. */
  predicate ProducerNext(s: System, s': System, step: ProducerStep) {
    && Shape(s.ring)
    && match step
    case Write(w) =>
      && s.producer.pc.Running? && !s.producer.waiting && Writes(s.ring, s'.ring, w)
      && (w.Begin? ==> w.seq_ == s.ring.top + 1 < s.producer.gate)
      && s' == s.(ring := s'.ring)
    case Block =>
      && s.producer.pc.Running? && s.ring.top + 1 >= s.producer.gate && Writes(s.ring, s'.ring, Publish)
      && s' == s.(ring := s'.ring, producer := s.producer.(waiting := true))
    case StartScan =>
      && s.producer.pc.Running? && s.ring.writer.Quiet?
      && s' == s.(producer := s.producer.(pc := Scanning(0, LoadActive, None)))
    case ScanLoad =>
      && s.producer.pc.Scanning? && s.producer.pc.k < |s.slots|
      && s' == Scanned(s)
    case EndScan =>
      && s.producer.pc.Scanning? && s.producer.pc.k == |s.slots|
      && var gate := Limit(s.producer.pc.min, s.ring.top + 1, s.ring.cap);
      && s' == s.(producer := Producer(Running, gate, s.producer.waiting && s.ring.top + 1 >= gate))
  }

  /** One load of `min_cursor`. Reading a live registration's own cursor covers that reader. */
  function Scanned(s: System): System
    requires s.producer.pc.Scanning? && s.producer.pc.k < |s.slots|
  {
    var pc := s.producer.pc;
    var slot := s.slots[pc.k];
    match pc.load
    case LoadActive => At(s, if slot.active then pc.(load := LoadPid) else Scanning(pc.k + 1, LoadActive, pc.min))
    case LoadPid => At(s, if slot.pid != 0 then pc.(load := LoadCursor) else Scanning(pc.k + 1, LoadActive, pc.min))
    case LoadCursor =>
      At(s, Scanning(pc.k + 1, LoadActive, Smaller(pc.min, slot.cursor)))
      .(readers := map id | id in s.readers :: Noticed(s, s.readers[id], pc.k))
  }

  function At(s: System, pc: Pc): System { s.(producer := s.producer.(pc := pc)) }

  function Noticed(s: System, r: Reader, k: nat): Reader {
    if r.phase == Registered(k) && Alive(s, r) && r.covered.None?
    then r.(covered := Some(Cover(r.consumer.cursor, s.ring.top))) else r
  }

  predicate Alive(s: System, r: Reader) { r.pid !in s.dead }

  // ------------------------------------------------------------------ readers and their processes

  datatype ReaderStep =
    | Attach(pid: nat, mode: C.StartMode)
    | Probe(i: nat)
    | Claim(ok: bool)
    | Hide
    | Place
    | Activate
    | Receive
    | Store
    | Leave
    | Release

  predicate ReaderNext(s: System, s': System, id: nat, step: ReaderStep) {
    && Shape(s.ring)
    && (if step.Attach? then
          && id !in s.readers && step.pid != 0 && step.pid !in s.dead
          && s' == s.(readers := s.readers[id := Reader(step.pid, Starting, C.Attach(s.ring, step.mode), 0, None)])
        else id in s.readers && Alive(s, s.readers[id]) && Does(s, s', id, step))
  }

  function Moved(s: System, id: nat, r: Reader): System { s.(readers := s.readers[id := r]) }

  function Stored(s: System, i: nat, slot: ReaderSlot): System
    requires i < |s.slots|
  {
    s.(slots := s.slots[i := slot])
  }

  predicate Does(s: System, s': System, id: nat, step: ReaderStep)
    requires Shape(s.ring) && id in s.readers
  {
    var r := s.readers[id];
    match step
    case Attach(_, _) => false
    case Probe(i) => r.phase.Starting? && i < |s.slots| && s' == Moved(s, id, r.(phase := Loaded(i, s.slots[i].pid)))
    case Claim(ok) =>
      && r.phase.Loaded?
      && (if ok then
            && r.phase.i < |s.slots| && (r.phase.pid == 0 || r.phase.pid in s.dead) && s.slots[r.phase.i].pid == r.phase.pid
            && s' == Moved(Stored(s, r.phase.i, s.slots[r.phase.i].(pid := r.pid)), id, r.(phase := Claimed(r.phase.i)))
          else s' == Moved(s, id, r.(phase := Starting)))
    case Hide =>
      && r.phase.Claimed? && r.phase.i < |s.slots|
      && s' == Moved(Stored(s, r.phase.i, s.slots[r.phase.i].(active := false)), id, r.(phase := Hidden(r.phase.i)))
    case Place =>
      && r.phase.Hidden? && r.phase.i < |s.slots|
      && s' == Moved(Stored(s, r.phase.i, s.slots[r.phase.i].(cursor := r.consumer.cursor)), id, r.(phase := Placed(r.phase.i)))
    case Activate =>
      && r.phase.Placed? && r.phase.i < |s.slots|
      && s' == Moved(Stored(s, r.phase.i, s.slots[r.phase.i].(active := true)), id,
                     r.(phase := Registered(r.phase.i), since := s.ring.top))
    case Receive =>
      && r.phase.Registered?
      && (r.consumer.pc.Reading? && r.consumer.pc.rd.Copied? ==> |r.consumer.pc.rd.buf| <= s.ring.width)
      && s' == Moved(s, id, r.(consumer := C.Act(s.ring, r.consumer, false)))
    case Store =>
      && r.phase.Registered? && r.phase.i < |s.slots|
      && s' == Stored(s, r.phase.i, s.slots[r.phase.i].(cursor := r.consumer.cursor))
    case Leave =>
      && r.phase.Registered? && r.phase.i < |s.slots|
      && s' == Moved(Stored(s, r.phase.i, s.slots[r.phase.i].(active := false)), id,
                     r.(phase := Leaving(r.phase.i), covered := None))
    case Release =>
      && r.phase.Leaving? && r.phase.i < |s.slots|
      && s' == Moved(if s.slots[r.phase.i].pid == r.pid then Stored(s, r.phase.i, s.slots[r.phase.i].(pid := 0)) else s,
                     id, r.(phase := Released))
  }

  /** Any process may die at any time, and anyone may release a dead process's slot. */
  datatype Step = Produce(p: ProducerStep) | Read(id: nat, r: ReaderStep) | Crash(pid: nat) | Reclaim(i: nat)

  predicate NextStep(s: System, s': System, step: Step) {
    match step
    case Produce(p) => ProducerNext(s, s', p)
    case Read(id, r) => ReaderNext(s, s', id, r)
    case Crash(pid) => s' == s.(dead := s.dead + {pid})
    case Reclaim(i) =>
      && i < |s.slots| && s.slots[i].pid != 0 && s.slots[i].pid in s.dead
      && s' == Stored(s, i, s.slots[i].(pid := 0))
  }

  // ------------------------------------------------------------------ invariant

  predicate Owns(p: Phase) { p.Claimed? || p.Hidden? || p.Placed? || p.Registered? || p.Leaving? }

  /** The scan has gone past slot `i`. */
  predicate ScanPast(p: Producer, i: nat) { p.pc.Scanning? && i < p.pc.k }

  /** From the moment a scan has read the reader's cursor the gate respects it. */
  predicate GateCovers(s: System, i: nat)
    requires i < |s.slots|
  {
    && (s.producer.pc.Running? ==> s.producer.gate <= s.slots[i].cursor + s.ring.cap)
    && (ScanPast(s.producer, i) ==> s.producer.pc.min.Some? && s.producer.pc.min.value <= s.slots[i].cursor)
  }

  /** Nothing at or above the cursor has been overwritten since, and every message passed since
      that was still there has been returned. */
  predicate CoverOk(s: System, c: C.Consumer, v: Cover) {
    && v.from <= c.cursor && v.mark <= s.ring.top && (s.ring.top == v.mark || s.ring.top < c.cursor + s.ring.cap)
    && forall n :: v.from <= n < c.cursor && n + s.ring.cap > v.mark ==> n in C.Seqs(c.delivered)
  }

  /** Until then at most a window of messages is written. */
  predicate UncoveredOk(s: System, since: nat, i: nat) {
    && since <= s.ring.top <= since + Window(s.ring.cap)
    && (s.producer.pc.Running? ==> s.producer.gate <= since + 1 + Window(s.ring.cap))
    && (ScanPast(s.producer, i) ==> s.ring.top == since)
  }

  predicate SlotHeld(s: System, r: Reader) {
    Owns(r.phase) ==>
      && r.phase.i < |s.slots| && s.slots[r.phase.i].pid == r.pid
      && (r.phase.Hidden? || r.phase.Placed? || r.phase.Leaving? ==> !s.slots[r.phase.i].active)
      && (r.phase.Registered? ==> s.slots[r.phase.i].active)
      && (r.phase.Placed? || r.phase.Registered? ==> s.slots[r.phase.i].cursor <= r.consumer.cursor)
  }

  predicate WatchOk(s: System, r: Reader)
    requires SlotHeld(s, r)
  {
    && (r.covered.Some? ==> r.phase.Registered? && GateCovers(s, r.phase.i) && CoverOk(s, r.consumer, r.covered.value))
    && (r.phase.Registered? && r.covered.None? ==> UncoveredOk(s, r.since, r.phase.i))
  }

  predicate ReaderOk(s: System, r: Reader)
    requires Shape(s.ring)
  {
    r.pid != 0 && (Alive(s, r) ==> C.ConsumerOk(s.ring, r.consumer) && SlotHeld(s, r) && WatchOk(s, r))
  }

  /** Live owners hold different slots. */
  predicate Apart(s: System, a: nat, b: nat)
    requires a in s.readers && b in s.readers
  {
    var (p, q) := (s.readers[a], s.readers[b]);
    a != b && Alive(s, p) && Alive(s, q) && Owns(p.phase) && Owns(q.phase) ==> p.phase.i != q.phase.i
  }

  predicate ProducerOk(s: System)
    requires Shape(s.ring)
  {
    && s.producer.gate <= s.ring.top + 1 + Window(s.ring.cap)
    && (s.producer.pc.Scanning? ==> s.ring.writer.Quiet? && s.producer.pc.k <= |s.slots|)
    && (s.producer.waiting ==> s.ring.writer.Quiet? && s.ring.writeSeq == s.ring.top)
  }

  predicate Inv(s: System) {
    && RingOk(s.ring) && Dense(s.ring) && ProducerOk(s)
    && (forall id :: id in s.readers ==> ReaderOk(s, s.readers[id]))
    && (forall a, b :: a in s.readers && b in s.readers ==> Apart(s, a, b))
  }

  predicate Init(s: System) {
    && s.ring.cap >= 1 && s.ring == Fresh(s.ring.cap, s.ring.width)
    && (forall i :: 0 <= i < |s.slots| ==> s.slots[i] == ReaderSlot(0, false, 0))
    && s.producer == Producer(Running, 0, false) && s.readers == map[] && s.dead == {}
  }

  lemma InitHolds(s: System)
    requires Init(s)
    ensures Inv(s)
  {
    FreshHolds(s.ring.cap, s.ring.width);
  }

  // ------------------------------------------------------------------ steps of the producer

  lemma WriteKeepsReader(s: System, s': System, w: WriterStep, r: Reader)
    requires RingOk(s.ring) && ProducerNext(s, s', Write(w)) && ReaderOk(s, r)
    ensures Shape(s'.ring) && ReaderOk(s', r)
  {
    WriterKeeps(s.ring, s'.ring, w);
    if Alive(s, r) { C.WriterKeepsConsumer(s.ring, s'.ring, w, r.consumer); }
  }

  lemma BlockKeepsReader(s: System, s': System, r: Reader)
    requires RingOk(s.ring) && ProducerNext(s, s', Block) && ReaderOk(s, r)
    ensures Shape(s'.ring) && ReaderOk(s', r)
  {
    WriterKeeps(s.ring, s'.ring, Publish);
    if Alive(s, r) { C.WriterKeepsConsumer(s.ring, s'.ring, Publish, r.consumer); }
  }

  lemma StartScanKeepsReader(s: System, s': System, r: Reader)
    requires RingOk(s.ring) && ProducerNext(s, s', StartScan) && ReaderOk(s, r)
    ensures ReaderOk(s', r)
  {
  }

  lemma ScanLoadKeepsReader(s: System, s': System, r: Reader)
    requires RingOk(s.ring) && ProducerNext(s, s', ScanLoad) && ReaderOk(s, r)
    ensures ReaderOk(s', if s.producer.pc.load.LoadCursor? then Noticed(s, r, s.producer.pc.k) else r)
  {
  }

  lemma EndScanKeepsReader(s: System, s': System, r: Reader)
    requires RingOk(s.ring) && ProducerNext(s, s', EndScan) && ReaderOk(s, r)
    ensures ReaderOk(s', r)
  {
  }

  lemma ProducerKeepsSelf(s: System, s': System, step: ProducerStep)
    requires RingOk(s.ring) && Dense(s.ring) && ProducerOk(s) && ProducerNext(s, s', step)
    ensures RingOk(s'.ring) && Dense(s'.ring) && ProducerOk(s')
  {
    match step
    case Write(w) => WriterKeeps(s.ring, s'.ring, w); DenseKept(s.ring, s'.ring, w);
    case Block => WriterKeeps(s.ring, s'.ring, Publish); DenseKept(s.ring, s'.ring, Publish);
    case _ =>
  }

  lemma ProducerKeepsReader(s: System, s': System, step: ProducerStep, id: nat)
    requires RingOk(s.ring) && ProducerNext(s, s', step) && id in s.readers && ReaderOk(s, s.readers[id])
    ensures Shape(s'.ring) && id in s'.readers && ReaderOk(s', s'.readers[id])
    ensures s'.readers[id].phase == s.readers[id].phase && s'.readers[id].pid == s.readers[id].pid
  {
    match step
    case Write(w) => WriteKeepsReader(s, s', w, s.readers[id]);
    case Block => BlockKeepsReader(s, s', s.readers[id]);
    case StartScan => StartScanKeepsReader(s, s', s.readers[id]);
    case ScanLoad => ScanLoadKeepsReader(s, s', s.readers[id]);
    case EndScan => EndScanKeepsReader(s, s', s.readers[id]);
  }

  lemma ProducerKeeps(s: System, s': System, step: ProducerStep)
    requires Inv(s) && ProducerNext(s, s', step)
    ensures Inv(s')
  {
    ProducerKeepsSelf(s, s', step);
    assert s'.readers.Keys == s.readers.Keys && s'.dead == s.dead;
    forall id | id in s'.readers
      ensures ReaderOk(s', s'.readers[id]) && s'.readers[id].phase == s.readers[id].phase
              && s'.readers[id].pid == s.readers[id].pid
    {
      ProducerKeepsReader(s, s', step, id);
    }
    forall a, b | a in s'.readers && b in s'.readers ensures Apart(s', a, b) { assert Apart(s, a, b); }
  }

  // ------------------------------------------------------------------ steps of a reader

  /** A reader that does not own the slot another one changed is not affected. */
  lemma ElsewhereKeepsReader(s: System, s': System, i: nat, r: Reader)
    requires Shape(s.ring) && ReaderOk(s, r) && i < |s.slots| && (Alive(s, r) && Owns(r.phase) ==> r.phase.i != i)
    requires s'.ring == s.ring && s'.producer == s.producer && s'.dead == s.dead
    requires |s'.slots| == |s.slots| && s'.slots == s.slots[i := s'.slots[i]]
    ensures ReaderOk(s', r)
  {
  }

  /** What receiving does to the cursor: it moves only over messages returned or out of reach. */
  lemma ReceiveKeepsCover(s: System, c: C.Consumer, v: Cover)
    requires RingOk(s.ring) && Dense(s.ring) && C.ConsumerOk(s.ring, c) && CoverOk(s, c, v)
    ensures CoverOk(s, C.Act(s.ring, c, false), v)
  {
    var c' := C.Act(s.ring, c, false);
    C.ActKeeps(s.ring, c, false);
    C.ActGrows(s.ring, c, false);
    forall n | v.from <= n < c'.cursor && n + s.ring.cap > v.mark ensures n in C.Seqs(c'.delivered) {
      if n >= c.cursor && n !in C.Seqs(c'.delivered) {
        assert C.OutOfReach(s.ring, n);
        if Gone(s.ring, n) { DenseGone(s.ring, n); }
      }
    }
  }

  lemma ReceiveKeepsReader(s: System, s': System, id: nat)
    requires RingOk(s.ring) && Dense(s.ring) && ReaderNext(s, s', id, Receive) && ReaderOk(s, s.readers[id])
    ensures ReaderOk(s', s'.readers[id])
  {
    var r := s.readers[id];
    C.ActKeeps(s.ring, r.consumer, false);
    C.ActGrows(s.ring, r.consumer, false);
    if r.covered.Some? { ReceiveKeepsCover(s, r.consumer, r.covered.value); }
  }

  lemma AttachKeepsReader(s: System, s': System, id: nat, pid: nat, mode: C.StartMode)
    requires RingOk(s.ring) && ReaderNext(s, s', id, Attach(pid, mode))
    ensures ReaderOk(s', s'.readers[id])
  {
    C.AttachHolds(s.ring, mode);
  }

  lemma DoerKeepsReader(s: System, s': System, id: nat, step: ReaderStep)
    requires RingOk(s.ring) && Dense(s.ring) && ProducerOk(s) && ReaderNext(s, s', id, step)
    requires !step.Attach? && !step.Receive? && ReaderOk(s, s.readers[id])
    ensures ReaderOk(s', s'.readers[id])
  {
  }

  /** The slot a step writes to, if any. */
  function Touched(s: System, id: nat, step: ReaderStep): Option<nat>
    requires id in s.readers
  {
    var p := s.readers[id].phase;
    match step
    case Claim(ok) => if ok && p.Loaded? then Some(p.i) else None
    case Hide => if p.Claimed? then Some(p.i) else None
    case Place => if p.Hidden? then Some(p.i) else None
    case Activate => if p.Placed? then Some(p.i) else None
    case Store => if p.Registered? then Some(p.i) else None
    case Leave => if p.Registered? then Some(p.i) else None
    case Release => if p.Leaving? then Some(p.i) else None
    case _ => None
  }

  /** No live reader but the actor owns a slot that a step writes to: a slot is claimed only when
      it is free or its owner dead. */
  lemma TouchesOwn(s: System, s': System, id: nat, step: ReaderStep, other: nat)
    requires Inv(s) && ReaderNext(s, s', id, step) && !step.Attach? && other in s.readers && other != id
    requires Touched(s, id, step).Some? && Alive(s, s.readers[other]) && Owns(s.readers[other].phase)
    ensures s.readers[other].phase.i != Touched(s, id, step).value
  {
    assert Apart(s, id, other) && ReaderOk(s, s.readers[other]) && ReaderOk(s, s.readers[id]);
  }

  lemma OthersKeep(s: System, s': System, id: nat, step: ReaderStep, other: nat)
    requires Inv(s) && ReaderNext(s, s', id, step) && other in s.readers && other != id
    ensures other in s'.readers && s'.readers[other] == s.readers[other] && ReaderOk(s', s.readers[other])
  {
    assert ReaderOk(s, s.readers[other]);
    if !step.Attach? && Touched(s, id, step).Some? {
      if Alive(s, s.readers[other]) && Owns(s.readers[other].phase) { TouchesOwn(s, s', id, step, other); }
      ElsewhereKeepsReader(s, s', Touched(s, id, step).value, s.readers[other]);
    }
  }

  lemma ReaderKeepsApart(s: System, s': System, id: nat, step: ReaderStep, other: nat)
    requires Inv(s) && ReaderNext(s, s', id, step) && other in s.readers && other != id
    ensures id in s'.readers && other in s'.readers && Apart(s', id, other) && Apart(s', other, id)
  {
    if !step.Attach? {
      assert Apart(s, id, other);
      if Touched(s, id, step).Some? && Alive(s, s.readers[other]) && Owns(s.readers[other].phase) {
        TouchesOwn(s, s', id, step, other);
      }
    }
  }

  lemma ReaderKeepsAllApart(s: System, s': System, id: nat, step: ReaderStep, a: nat, b: nat)
    requires Inv(s) && ReaderNext(s, s', id, step) && a in s'.readers && b in s'.readers
    ensures Apart(s', a, b)
  {
    if a != b && a == id { ReaderKeepsApart(s, s', id, step, b); }
    else if a != b && b == id { ReaderKeepsApart(s, s', id, step, a); }
    else if a != b { assert Apart(s, a, b); }
  }

  lemma ReaderKeepsReaders(s: System, s': System, id: nat, step: ReaderStep, x: nat)
    requires Inv(s) && ReaderNext(s, s', id, step) && x in s'.readers
    ensures ReaderOk(s', s'.readers[x])
  {
    if x != id { OthersKeep(s, s', id, step, x); }
    else if step.Attach? { AttachKeepsReader(s, s', id, step.pid, step.mode); }
    else if step.Receive? { ReceiveKeepsReader(s, s', id); }
    else { DoerKeepsReader(s, s', id, step); }
  }

  lemma ReaderKeeps(s: System, s': System, id: nat, step: ReaderStep)
    requires Inv(s) && ReaderNext(s, s', id, step)
    ensures Inv(s')
  {
    forall x | x in s'.readers ensures ReaderOk(s', s'.readers[x]) { ReaderKeepsReaders(s, s', id, step, x); }
    forall a, b | a in s'.readers && b in s'.readers ensures Apart(s', a, b) {
      ReaderKeepsAllApart(s, s', id, step, a, b);
    }
  }

  // ------------------------------------------------------------------ crashes and reclaiming

  lemma CrashKeeps(s: System, s': System, pid: nat)
    requires Inv(s) && NextStep(s, s', Crash(pid))
    ensures Inv(s')
  {
    forall id | id in s'.readers ensures ReaderOk(s', s'.readers[id]) { assert ReaderOk(s, s.readers[id]); }
    forall a, b | a in s'.readers && b in s'.readers ensures Apart(s', a, b) { assert Apart(s, a, b); }
  }

  /** Releasing a dead process's slot takes nothing from a reader that is alive. */
  lemma ReclaimKeeps(s: System, s': System, i: nat)
    requires Inv(s) && NextStep(s, s', Reclaim(i))
    ensures Inv(s')
  {
    forall id | id in s'.readers ensures ReaderOk(s', s'.readers[id]) {
      assert ReaderOk(s, s.readers[id]);
      ElsewhereKeepsReader(s, s', i, s.readers[id]);
    }
    forall a, b | a in s'.readers && b in s'.readers ensures Apart(s', a, b) { assert Apart(s, a, b); }
  }

  lemma StepKeeps(s: System, s': System, step: Step)
    requires Inv(s) && NextStep(s, s', step)
    ensures Inv(s')
  {
    match step
    case Produce(p) => ProducerKeeps(s, s', p);
    case Read(id, r) => ReaderKeeps(s, s', id, r);
    case Crash(pid) => CrashKeeps(s, s', pid);
    case Reclaim(i) => ReclaimKeeps(s, s', i);
  }

  // ------------------------------------------------------------------ runs

  ghost predicate Steps(s: System, s': System) { exists step :: NextStep(s, s', step) }

  ghost predicate StepAt(run: seq<System>, i: nat)
    requires 0 < i < |run|
  {
    Steps(run[i - 1], run[i])
  }

  ghost predicate Run(run: seq<System>) {
    run != [] && Init(run[0]) && forall i :: 0 < i < |run| ==> StepAt(run, i)
  }

  lemma {:induction false} RunKeeps(run: seq<System>, i: nat)
    requires Run(run) && i < |run|
    ensures Inv(run[i])
  {
    if i == 0 {
      InitHolds(run[0]);
    } else {
      RunKeeps(run, i - 1);
      assert StepAt(run, i);
      var step :| NextStep(run[i - 1], run[i], step);
      StepKeeps(run[i - 1], run[i], step);
    }
  }

  /** A live reader whose own cursor some scan has read. */
  predicate Held(s: System, id: nat) {
    id in s.readers && Alive(s, s.readers[id]) && s.readers[id].covered.Some?
  }

  // ------------------------------------------------------------------ protection

  lemma ClaimRespectsCover(s: System, s': System, step: Step, id: nat)
    requires Inv(s) && NextStep(s, s', step) && Held(s, id) && s'.ring.top > s.ring.top
    ensures id in s'.readers && s'.ring.top < s'.readers[id].consumer.cursor + s'.ring.cap
  {
    assert ReaderOk(s, s.readers[id]);
    assert step.Produce?;
  }

  /** Once a scan has read a live reader's own cursor, no slot claimed afterwards holds a message at
      or above the reader's current cursor, however old the cached gate. */
  lemma CoveredReadersAreProtected(run: seq<System>, i: nat, id: nat)
    requires Run(run) && 0 < i < |run| && Held(run[i - 1], id) && run[i].ring.top > run[i - 1].ring.top
    ensures id in run[i].readers && run[i].ring.top < run[i].readers[id].consumer.cursor + run[i].ring.cap
  {
    RunKeeps(run, i - 1);
    assert StepAt(run, i);
    var step :| NextStep(run[i - 1], run[i], step);
    ClaimRespectsCover(run[i - 1], run[i], step, id);
  }

  /** Every message the reader has passed since it was covered, unless it had been overwritten by
      then, was returned to it. */
  lemma NothingIsLostOnceCovered(run: seq<System>, i: nat, id: nat, n: nat)
    requires Run(run) && i < |run| && Held(run[i], id)
    requires run[i].readers[id].covered.value.from <= n < run[i].readers[id].consumer.cursor
    requires n + run[i].ring.cap > run[i].readers[id].covered.value.mark
    ensures exists m :: m in run[i].readers[id].consumer.delivered && m.seq_ == n
                        && n in run[i].ring.hist && m.data == run[i].ring.hist[n]
  {
    RunKeeps(run, i);
    var r := run[i].readers[id];
    assert ReaderOk(run[i], r);
    assert n in C.Seqs(r.consumer.delivered);
    var m :| m in r.consumer.delivered && m.seq_ == n;
  }

  /** A reader with nothing overwritten at or above its cursor. */
  predicate Safe(r: Ring, c: C.Consumer) { r.top < c.cursor + r.cap }

  /** What a safe reader does: nothing, or return the very next message. */
  predicate Follows(r: Ring, c: C.Consumer, c': C.Consumer) {
    && c'.lapped == c.lapped
    && (|| (c'.cursor == c.cursor && c'.delivered == c.delivered)
        || (&& c.cursor in r.hist && c'.cursor == c.cursor + 1
            && c'.delivered == c.delivered + [C.Message(c.cursor, r.hist[c.cursor])]))
  }

  lemma SafeReaderFollows(r: Ring, c: C.Consumer)
    requires RingOk(r) && Dense(r) && C.ConsumerOk(r, c) && Safe(r, c) && NoHole(c)
    ensures Follows(r, c, C.Act(r, c, false))
  {
  }

  /** On a dense ring readers never enter the hole-skipping code. */
  predicate NoHoles(s: System) {
    forall id :: id in s.readers ==> NoHole(s.readers[id].consumer)
  }

  predicate NoHole(c: C.Consumer) { !c.pc.HoleLoad? && !c.pc.HoleCheck? && !c.pc.HoleScan? }

  lemma ReaderStepKeepsNoHoles(s: System, s': System, id: nat, step: ReaderStep, x: nat)
    requires NoHoles(s) && ReaderNext(s, s', id, step) && x in s'.readers
    ensures NoHole(s'.readers[x].consumer)
  {
    if x in s.readers { assert NoHole(s.readers[x].consumer); }
  }

  lemma StepKeepsNoHoles(s: System, s': System, step: Step)
    requires NoHoles(s) && NextStep(s, s', step)
    ensures NoHoles(s')
  {
    forall x | x in s'.readers ensures NoHole(s'.readers[x].consumer) {
      if step.Read? { ReaderStepKeepsNoHoles(s, s', step.id, step.r, x); }
      else { assert x in s.readers && s'.readers[x].consumer == s.readers[x].consumer && NoHole(s.readers[x].consumer); }
    }
  }

  lemma {:induction false} RunHasNoHoles(run: seq<System>, i: nat)
    requires Run(run) && i < |run|
    ensures NoHoles(run[i])
  {
    if i > 0 {
      RunHasNoHoles(run, i - 1);
      assert StepAt(run, i);
      var step :| NextStep(run[i - 1], run[i], step);
      StepKeepsNoHoles(run[i - 1], run[i], step);
    }
  }

  lemma RingMoves(s: System, s': System, step: Step)
    requires Inv(s) && NextStep(s, s', step)
    ensures RingOk(s'.ring) && Evolves(s.ring, s'.ring)
  {
    if step.Produce? && step.p.Write? { WriterKeeps(s.ring, s'.ring, step.p.w); }
    if step.Produce? && step.p.Block? { WriterKeeps(s.ring, s'.ring, Publish); }
  }

  lemma ConsumerMoves(s: System, s': System, step: Step, id: nat)
    requires NextStep(s, s', step) && id in s.readers && !(step.Read? && step.id == id && step.r.Receive?)
    ensures id in s'.readers && s'.readers[id].consumer == s.readers[id].consumer
  {
  }

  lemma HeldStepFollows(s: System, s': System, step: Step, id: nat)
    requires Inv(s) && NoHoles(s) && NextStep(s, s', step) && Held(s, id)
    requires Safe(s.ring, s.readers[id].consumer) && RingOk(s'.ring) && Evolves(s.ring, s'.ring)
    ensures id in s'.readers && Safe(s'.ring, s'.readers[id].consumer)
    ensures Follows(s'.ring, s.readers[id].consumer, s'.readers[id].consumer)
  {
    assert ReaderOk(s, s.readers[id]);
    if step.Read? && step.id == id && step.r.Receive? {
      SafeReaderFollows(s.ring, s.readers[id].consumer);
    } else {
      ConsumerMoves(s, s', step, id);
      if s'.ring.top > s.ring.top { ClaimRespectsCover(s, s', step, id); }
    }
  }

  /** The messages a reader returned between two states. */
  predicate Consecutive(r: Ring, c: C.Consumer, c': C.Consumer) {
    && c.cursor <= c'.cursor && c'.lapped == c.lapped && c.delivered <= c'.delivered
    && |c'.delivered| - |c.delivered| == c'.cursor - c.cursor
    && forall k :: |c.delivered| <= k < |c'.delivered| ==>
         var m := c'.delivered[k];
         m.seq_ == c.cursor + (k - |c.delivered|) && m.seq_ in r.hist && m.data == r.hist[m.seq_]
  }

  lemma ConsecutiveGrows(r: Ring, r': Ring, c: C.Consumer, c': C.Consumer, c'': C.Consumer)
    requires Consecutive(r, c, c') && Follows(r', c', c'') && Evolves(r, r')
    ensures Consecutive(r', c, c'')
  {
    assert c'.delivered <= c''.delivered;
    forall k | |c.delivered| <= k < |c''.delivered|
      ensures var m := c''.delivered[k];
              m.seq_ == c.cursor + (k - |c.delivered|) && m.seq_ in r'.hist && m.data == r'.hist[m.seq_]
    {
      if k < |c'.delivered| { assert c''.delivered[k] == c'.delivered[k]; }
    }
  }

  lemma DeliveryStep(s: System, s': System, id: nat, c: C.Consumer)
    requires Inv(s) && NoHoles(s) && Steps(s, s') && Held(s, id) && Held(s', id)
    requires Safe(s.ring, s.readers[id].consumer) && Consecutive(s.ring, c, s.readers[id].consumer)
    ensures Safe(s'.ring, s'.readers[id].consumer) && Consecutive(s'.ring, c, s'.readers[id].consumer)
  {
    var step :| NextStep(s, s', step);
    RingMoves(s, s', step);
    HeldStepFollows(s, s', step, id);
    ConsecutiveGrows(s.ring, s'.ring, c, s.readers[id].consumer, s'.readers[id].consumer);
  }

  /** The registration lasts from state `i` to state `j`, and scans have read its cursor. */
  predicate HeldFrom(run: seq<System>, i: nat, j: nat, id: nat) {
    i <= j < |run| && Held(run[j], id) && (i == j || HeldFrom(run, i, j - 1, id))
  }

  /** Between two states while the registration lasts the reader got every message from the one
      cursor to the other and misses none. */
  predicate Delivered(s: System, t: System, id: nat)
    requires Held(s, id) && Held(t, id)
  {
    Safe(t.ring, t.readers[id].consumer) && Consecutive(t.ring, s.readers[id].consumer, t.readers[id].consumer)
  }

  lemma DeliveredFurther(s: System, t: System, u: System, id: nat)
    requires Held(s, id) && Held(t, id) && Held(u, id) && Delivered(s, t, id)
    requires Inv(t) && NoHoles(t) && Steps(t, u)
    ensures Delivered(s, u, id)
  {
    DeliveryStep(t, u, id, s.readers[id].consumer);
  }

  lemma StepIsTaken(run: seq<System>, j: nat)
    requires Run(run) && 0 < j < |run|
    ensures Inv(run[j - 1]) && NoHoles(run[j - 1]) && Steps(run[j - 1], run[j])
  {
    RunKeeps(run, j - 1);
    RunHasNoHoles(run, j - 1);
    assert StepAt(run, j);
  }

  /** Lossless delivery: for as long as its registration lasts, a covered reader that had missed
      nothing by then misses nothing, and gets every message, in order, exactly once. */
  lemma {:induction false} LosslessDelivery(run: seq<System>, i: nat, j: nat, id: nat)
    requires Run(run) && HeldFrom(run, i, j, id)
    requires Held(run[i], id) && Safe(run[i].ring, run[i].readers[id].consumer)
    ensures Held(run[j], id) && Delivered(run[i], run[j], id)
    decreases j
  {
    if i < j {
      LosslessDelivery(run, i, j - 1, id);
      StepIsTaken(run, j);
      DeliveredFurther(run[i], run[j - 1], run[j], id);
    }
  }

  // ------------------------------------------------------------------ readers not yet covered

  /** A reader that registers after the gate was cached is picked up within half a ring: until some
      scan reads its cursor, at most that many slots are claimed, or one in a ring of one slot. */
  lemma NewReadersArePickedUpSoon(run: seq<System>, i: nat, id: nat)
    requires Run(run) && i < |run| && id in run[i].readers && Alive(run[i], run[i].readers[id])
    requires run[i].readers[id].phase.Registered? && run[i].readers[id].covered.None?
    ensures var claimed := run[i].ring.top - run[i].readers[id].since;
            claimed >= 0 && (2 * claimed <= run[i].ring.cap || claimed <= 1)
  {
    RunKeeps(run, i);
    assert ReaderOk(run[i], run[i].readers[id]);
  }
}
