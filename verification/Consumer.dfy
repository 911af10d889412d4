/** A broadcast consumer reading a ring while the writer laps it: one step per load, interleaved
    with the writer's stores and copied words. */
module Consumer {
  import opened Basics
  import opened Modular
  import opened SlotProtocol

  datatype Message = Message(seq_: nat, data: seq<int>)

  /** Between calls, in a slot read, about to skip because the slot held `seen`, or in one of the
      loads of `skip_hole`. */
  datatype Pc =
    | Idle
    | Reading(rd: Read)
    | Lapped(seen: nat)
    | HoleLoad
    | HoleCheck(ws: nat)
    | HoleScan(ws: nat, next: nat)

  /** `start` is the position asked for when attaching; `delivered` is everything returned. */
  datatype Consumer = Consumer(start: nat, cursor: nat, lapped: nat, delivered: seq<Message>, polls: nat, pc: Pc)

  // ------------------------------------------------------------------ attaching

  datatype StartMode = Latest | Head | Oldest | Sequence(n: nat)

  /** The position asked for and the position taken, given the announced sequence. */
  function Resolve(mode: StartMode, ws: nat, cap: nat): (nat, nat)
    requires cap >= 1
  {
    var oldest := OldestRetained(ws, cap);
    match mode
    case Latest => (Max(ws, 1), Max(ws, 1))
    case Head => (ws + 1, ws + 1)
    case Oldest => (oldest, oldest)
    case Sequence(n) => (Max(n, 1), Max(Max(n, 1), oldest))
  }

  /** Message `n` is announced and not a full ring behind what is. */
  predicate Retained(ws: nat, cap: nat, n: nat) { 1 <= n <= ws < n + cap }

  /** Where each mode puts a consumer, and how many messages it counts as lapped for that. `Oldest`:
      at the oldest announced message that is retained. `Latest`: at the newest announced one, or at
      the first message when there is none. `Head`: just past the announced ones. `Sequence(n)`: at
      `n`, or at the oldest retained message if `n` is no longer retained. */
  ghost predicate Places(mode: StartMode, ws: nat, cap: nat, cursor: nat, lapped: nat) {
    && 1 <= cursor
    && match mode
    case Oldest =>
      && lapped == 0 && (forall n: nat :: Retained(ws, cap, n) ==> n >= cursor)
      && (if ws == 0 then cursor == 1 else Retained(ws, cap, cursor))
    case Latest => lapped == 0 && (if ws == 0 then cursor == 1 else cursor == ws)
    case Head => lapped == 0 && cursor == ws + 1
    case Sequence(n) =>
      && (lapped == 0 ==> cursor == Max(n, 1) && ws < cursor + cap)
      && (lapped != 0 ==> cursor == Max(n, 1) + lapped && Max(n, 1) + cap <= ws && cursor + cap == ws + 1)
  }

  lemma ResolvePlaces(mode: StartMode, ws: nat, cap: nat)
    requires cap >= 1
    ensures var (start, cursor) := Resolve(mode, ws, cap);
            start <= cursor && Places(mode, ws, cap, cursor, cursor - start)
  {
  }

  function Attach(r: Ring, mode: StartMode): Consumer
    requires r.cap >= 1
  {
    var (start, cursor) := Resolve(mode, r.writeSeq, r.cap);
    // A registered consumer re-checks its position once before it reads.
    Consumer(start, cursor, if cursor > start then cursor - start else 0, [], 0, Lapped(0))
  }

  // ------------------------------------------------------------------ steps

  function SkipTo(c: Consumer, n: nat): Consumer {
    c.(cursor := n, lapped := if n > c.cursor then c.lapped + (n - c.cursor) else c.lapped, pc := Idle)
  }

  /** What a finished slot read leads to. */
  function Concluded(c: Consumer, res: Result, sparse: bool): Consumer {
    match res
    case Item(data) => c.(delivered := c.delivered + [Message(c.cursor, data)], cursor := c.cursor + 1, pc := Idle)
    case Overwritten(seen) => c.(pc := Lapped(seen))
    case Pending =>
      if !sparse then c.(pc := Idle)
      else
        var polls := (c.polls + 1) % 0x1_0000_0000;
        c.(polls := polls, pc := if polls % 64 == 0 then HoleLoad else Idle)
  }

  function WordAt(r: Ring, n: nat): Word
    requires Shape(r)
  {
    SlotOf(r, n).word
  }

  /** The consumer's next action. */
  function Act(r: Ring, c: Consumer, sparse: bool): Consumer
    requires Shape(r) && (c.pc.Reading? && c.pc.rd.Copied? ==> |c.pc.rd.buf| <= r.width)
  {
    match c.pc
    case Idle => c.(pc := Reading(Start))
    case Reading(rd) =>
      if rd.Done? then Concluded(c, rd.res, sparse) else c.(pc := Reading(ReadStep(r, c.cursor, rd)))
    case Lapped(seen) =>
      var oldest := OldestRetained(Max(r.writeSeq, seen), r.cap);
      if oldest > c.cursor then SkipTo(c, oldest) else c.(pc := Idle)
    case HoleLoad => if r.writeSeq < c.cursor then c.(pc := Idle) else c.(pc := HoleCheck(r.writeSeq))
    case HoleCheck(ws) =>
      if WordAt(r, c.cursor).Writing? || WordAt(r, c.cursor).n >= c.cursor then c.(pc := Idle)
      else c.(pc := HoleScan(ws, Max(OldestRetained(ws, r.cap), c.cursor + 1)))
    case HoleScan(ws, next) =>
      if next <= ws && WordAt(r, next) != Seq(next) then c.(pc := HoleScan(ws, next + 1)) else SkipTo(c, next)
  }

  // ------------------------------------------------------------------ invariant

  function Seqs(ms: seq<Message>): set<nat> { set m | m in ms :: m.seq_ }

  /** The writer is a full ring past `n`, or `n` can never be read again. */
  predicate OutOfReach(r: Ring, n: nat)
    requires Shape(r)
  {
    Gone(r, n) || n + r.cap <= r.top
  }

  /** Deliveries are whole messages of the ring, in increasing order. */
  predicate DeliveredTrue(r: Ring, c: Consumer) {
    && (forall i :: 0 <= i < |c.delivered| ==>
          && c.start <= c.delivered[i].seq_ < c.cursor && c.delivered[i].seq_ in r.hist
          && c.delivered[i].data == r.hist[c.delivered[i].seq_])
    && (forall i, j :: 0 <= i < j < |c.delivered| ==> c.delivered[i].seq_ < c.delivered[j].seq_)
  }

  predicate Passed(r: Ring, c: Consumer)
    requires Shape(r)
  {
    forall n :: c.start <= n < c.cursor ==> n in Seqs(c.delivered) || OutOfReach(r, n)
  }

  predicate ScannedGone(r: Ring, ws: nat, from: nat, next: nat)
    requires Shape(r)
  {
    forall n :: from <= n < next && n + r.cap > ws ==> Gone(r, n)
  }

  predicate PcOk(r: Ring, c: Consumer)
    requires Shape(r)
  {
    match c.pc
    case Idle => true
    case Reading(rd) => ReadInv(r, c.cursor, rd)
    case Lapped(seen) => seen <= r.top
    case HoleLoad => true
    case HoleCheck(ws) => c.cursor <= ws <= r.writeSeq
    case HoleScan(ws, next) =>
      && c.cursor <= ws <= r.writeSeq && c.cursor < next <= ws + 1
      && c.cursor !in r.hist && Gone(r, c.cursor)
      && ScannedGone(r, ws, c.cursor + 1, next)
  }

  /** Every message passed is either delivered or out of reach, and the counters say how many. */
  predicate ConsumerOk(r: Ring, c: Consumer)
    requires Shape(r)
  {
    && 1 <= c.start <= c.cursor && |c.delivered| + c.lapped == c.cursor - c.start
    && DeliveredTrue(r, c) && Passed(r, c) && PcOk(r, c)
  }

  lemma AttachHolds(r: Ring, mode: StartMode)
    requires RingOk(r)
    ensures ConsumerOk(r, Attach(r, mode))
  {
  }

  /** A consumer begins where its mode says. */
  lemma AttachPlaces(r: Ring, mode: StartMode)
    requires RingOk(r)
    ensures var c := Attach(r, mode);
            && Places(mode, r.writeSeq, r.cap, c.cursor, c.lapped) && c.delivered == []
            && c.start == c.cursor - c.lapped
  {
    ResolvePlaces(mode, r.writeSeq, r.cap);
  }

  lemma SkipKeeps(r: Ring, c: Consumer, n: nat)
    requires RingOk(r) && ConsumerOk(r, c) && n > c.cursor
    requires forall k :: c.cursor <= k < n ==> OutOfReach(r, k)
    ensures ConsumerOk(r, SkipTo(c, n))
  {
  }

  lemma DeliverKeeps(r: Ring, c: Consumer, sparse: bool, data: seq<int>)
    requires RingOk(r) && ConsumerOk(r, c) && c.pc == Reading(Done(Item(data)))
    ensures ConsumerOk(r, Concluded(c, Item(data), sparse))
  {
    var c' := Concluded(c, Item(data), sparse);
    assert c'.delivered[|c.delivered|] == Message(c.cursor, data);
    forall n | c'.start <= n < c'.cursor ensures n in Seqs(c'.delivered) || OutOfReach(r, n) {
      if n == c.cursor {
        assert Message(c.cursor, data) in c'.delivered;
      } else if n in Seqs(c.delivered) {
        var m :| m in c.delivered && m.seq_ == n;
        assert m in c'.delivered;
      }
    }
  }

  /** Finding the cursor's slot at an older lap once the writer has announced more means that the
      message was never written to this ring and never will be. */
  lemma HoleIsReal(r: Ring, c: Consumer, ws: nat)
    requires RingOk(r) && ConsumerOk(r, c) && c.pc == HoleCheck(ws)
    requires WordAt(r, c.cursor).Seq? && WordAt(r, c.cursor).n < c.cursor
    ensures c.cursor !in r.hist && Gone(r, c.cursor)
  {
    assert SlotOk(r, Ix(c.cursor, r.cap));
  }

  /** A sequence behind the announced one whose slot holds something else is gone. */
  lemma AbsentIsGone(r: Ring, ws: nat, n: nat)
    requires RingOk(r) && 1 <= n <= ws <= r.writeSeq && WordAt(r, n) != Seq(n)
    ensures Gone(r, n)
  {
  }

  lemma ReadingKeeps(r: Ring, c: Consumer, sparse: bool)
    requires RingOk(r) && ConsumerOk(r, c) && c.pc.Reading?
    ensures ConsumerOk(r, Act(r, c, sparse))
  {
    var rd := c.pc.rd;
    if rd.Done? {
      if rd.res.Item? { DeliverKeeps(r, c, sparse, rd.res.data); }
    } else {
      ReadStepKeeps(r, c.cursor, rd);
    }
  }

  lemma LappedKeeps(r: Ring, c: Consumer, sparse: bool)
    requires RingOk(r) && ConsumerOk(r, c) && c.pc.Lapped?
    ensures ConsumerOk(r, Act(r, c, sparse))
  {
    var oldest := OldestRetained(Max(r.writeSeq, c.pc.seen), r.cap);
    if oldest > c.cursor { SkipKeeps(r, c, oldest); }
  }

  lemma HoleCheckKeeps(r: Ring, c: Consumer, sparse: bool)
    requires RingOk(r) && ConsumerOk(r, c) && c.pc.HoleCheck?
    ensures ConsumerOk(r, Act(r, c, sparse))
  {
    if WordAt(r, c.cursor).Seq? && WordAt(r, c.cursor).n < c.cursor { HoleIsReal(r, c, c.pc.ws); }
  }

  lemma HoleScanKeeps(r: Ring, c: Consumer, sparse: bool)
    requires RingOk(r) && ConsumerOk(r, c) && c.pc.HoleScan?
    ensures ConsumerOk(r, Act(r, c, sparse))
  {
    var (ws, next) := (c.pc.ws, c.pc.next);
    if next <= ws && WordAt(r, next) != Seq(next) { AbsentIsGone(r, ws, next); }
    else { SkipKeeps(r, c, next); }
  }

  lemma ActKeeps(r: Ring, c: Consumer, sparse: bool)
    requires RingOk(r) && ConsumerOk(r, c)
    ensures ConsumerOk(r, Act(r, c, sparse))
  {
    match c.pc
    case Idle =>
    case Reading(_) => ReadingKeeps(r, c, sparse);
    case Lapped(_) => LappedKeeps(r, c, sparse);
    case HoleLoad =>
    case HoleCheck(_) => HoleCheckKeeps(r, c, sparse);
    case HoleScan(_, _) => HoleScanKeeps(r, c, sparse);
  }

  /** An action takes nothing back: the cursor and the deliveries only grow. */
  lemma ActGrows(r: Ring, c: Consumer, sparse: bool)
    requires RingOk(r) && ConsumerOk(r, c)
    ensures var c' := Act(r, c, sparse);
            && c.cursor <= c'.cursor && c.start == c'.start && c.delivered <= c'.delivered
            && Seqs(c.delivered) <= Seqs(c'.delivered)
  {
    var c' := Act(r, c, sparse);
    assert forall m :: m in c.delivered ==> m in c'.delivered;
  }

  lemma WriterKeepsConsumer(r: Ring, r': Ring, step: WriterStep, c: Consumer)
    requires RingOk(r) && Writes(r, r', step) && ConsumerOk(r, c)
    ensures Shape(r') && ConsumerOk(r', c)
  {
    WriterKeeps(r, r', step);
    forall n | Gone(r, n) ensures Gone(r', n) { GoneForever(r, r', step, n); }
    if c.pc.Reading? { ReadUndisturbed(r, r', step, c.cursor, c.pc.rd); }
  }

  // ------------------------------------------------------------------ runs

  datatype System = System(ring: Ring, consumer: Consumer)

  ghost predicate Steps(s: System, s': System, sparse: bool) {
    && Shape(s.ring)
    && (|| (&& (s.consumer.pc.Reading? && s.consumer.pc.rd.Copied? ==> |s.consumer.pc.rd.buf| <= s.ring.width)
            && s' == s.(consumer := Act(s.ring, s.consumer, sparse)))
        || (&& s'.consumer == s.consumer
            && exists step :: Writes(s.ring, s'.ring, step) && (!sparse ==> DenseStep(s.ring, step))))
  }

  ghost predicate StepAt(run: seq<System>, i: nat, sparse: bool)
    requires 0 < i < |run|
  {
    Steps(run[i - 1], run[i], sparse)
  }

  /** A consumer attaches to a ring in any state and reads on while the writer writes. */
  ghost predicate Run(run: seq<System>, mode: StartMode, sparse: bool) {
    && run != [] && RingOk(run[0].ring) && (!sparse ==> Dense(run[0].ring))
    && run[0].consumer == Attach(run[0].ring, mode)
    && forall i :: 0 < i < |run| ==> StepAt(run, i, sparse)
  }

  lemma {:induction false} RunKeeps(run: seq<System>, mode: StartMode, sparse: bool, i: nat)
    requires Run(run, mode, sparse) && i < |run|
    ensures RingOk(run[i].ring) && ConsumerOk(run[i].ring, run[i].consumer)
    ensures !sparse ==> Dense(run[i].ring)
  {
    if i == 0 {
      AttachHolds(run[0].ring, mode);
    } else {
      RunKeeps(run, mode, sparse, i - 1);
      var s, s' := run[i - 1], run[i];
      assert StepAt(run, i, sparse);
      if s'.consumer == s.consumer && exists step :: Writes(s.ring, s'.ring, step) && (!sparse ==> DenseStep(s.ring, step)) {
        var step :| Writes(s.ring, s'.ring, step) && (!sparse ==> DenseStep(s.ring, step));
        WriterKeeps(s.ring, s'.ring, step);
        WriterKeepsConsumer(s.ring, s'.ring, step, s.consumer);
        if !sparse { DenseKept(s.ring, s'.ring, step); }
      } else {
        ActKeeps(s.ring, s.consumer, sparse);
      }
    }
  }

  /** However often it is lapped, a consumer returns only whole messages, in strictly increasing
      order, and the messages returned plus the lapped count are exactly the cursor's advance. */
  lemma DeliveriesAreWholeAndCounted(run: seq<System>, mode: StartMode, sparse: bool, i: nat)
    requires Run(run, mode, sparse) && i < |run|
    ensures var (r, c) := (run[i].ring, run[i].consumer);
            DeliveredTrue(r, c) && |c.delivered| + c.lapped == c.cursor - c.start
  {
    RunKeeps(run, mode, sparse, i);
  }

  /** On a dense ring a message the consumer passed without returning it had been written and then
      overwritten: the writer had claimed the slot a full ring later. */
  lemma OnlyOverwrittenMessagesAreSkipped(run: seq<System>, mode: StartMode, i: nat, n: nat)
    requires Run(run, mode, false) && i < |run|
    requires run[i].consumer.start <= n < run[i].consumer.cursor && n !in Seqs(run[i].consumer.delivered)
    ensures n + run[i].ring.cap <= run[i].ring.top && n in run[i].ring.hist && Shape(run[i].ring)
    ensures SlotOf(run[i].ring, n).word != Seq(n)
  {
    RunKeeps(run, mode, false, i);
    var (r, c) := (run[i].ring, run[i].consumer);
    assert OutOfReach(r, n);
    DenseGone(r, n);
  }

  // ------------------------------------------------------------------ sparse rings

  /** When `skip_hole` moves the cursor, the message there was never written and never will be, the
      cursor strictly advances, every message it passes that the announced sequence still retained
      is gone for good, and it stops at a message present or just past the announced sequence. */
  lemma SkipHoleSkipsOnlyHoles(run: seq<System>, mode: StartMode, i: nat)
    requires Run(run, mode, true) && i < |run| && run[i].consumer.pc.HoleScan? && Shape(run[i].ring)
    requires !Act(run[i].ring, run[i].consumer, true).pc.HoleScan?
    ensures var (r, c) := (run[i].ring, run[i].consumer); var c' := Act(r, c, true); var ws := c.pc.ws;
            && c.cursor !in r.hist && c.cursor <= r.writeSeq
            && c'.cursor > c.cursor && c'.lapped == c.lapped + (c'.cursor - c.cursor)
            && (forall n :: c.cursor <= n < c'.cursor && n >= OldestRetained(ws, r.cap) ==> Gone(r, n))
            && (c'.cursor == ws + 1 || Readable(r, c'.cursor))
  {
    RunKeeps(run, mode, true, i);
    HoleScanStops(run[i].ring, run[i].consumer);
  }

  lemma HoleScanStops(r: Ring, c: Consumer)
    requires RingOk(r) && ConsumerOk(r, c) && c.pc.HoleScan? && !Act(r, c, true).pc.HoleScan?
    ensures var c' := Act(r, c, true); var ws := c.pc.ws;
            && c.cursor !in r.hist && c.cursor <= r.writeSeq
            && c'.cursor > c.cursor && c'.lapped == c.lapped + (c'.cursor - c.cursor)
            && (forall n :: c.cursor <= n < c'.cursor && n >= OldestRetained(ws, r.cap) ==> Gone(r, n))
            && (c'.cursor == ws + 1 || Readable(r, c'.cursor))
  {
    assert ScannedGone(r, c.pc.ws, c.cursor + 1, c.pc.next);
  }

  /** A scan that does not stop gets closer to the announced sequence it loaded. */
  lemma SkipHoleTerminates(run: seq<System>, mode: StartMode, i: nat)
    requires Run(run, mode, true) && i < |run| && run[i].consumer.pc.HoleScan?
    ensures Shape(run[i].ring)
    ensures var c := run[i].consumer; var c' := Act(run[i].ring, c, true);
            && c.pc.next <= c.pc.ws + 1
            && (c'.pc.HoleScan? ==> c'.pc.ws == c.pc.ws && c.pc.ws + 1 - c'.pc.next < c.pc.ws + 1 - c.pc.next)
  {
    RunKeeps(run, mode, true, i);
  }

  /** The writer can never fill a hole that was skipped. */
  lemma HolesStayHoles(r: Ring, r': Ring, step: WriterStep, n: nat)
    requires RingOk(r) && Writes(r, r', step) && n !in r.hist && Gone(r, n)
    ensures Shape(r') && n !in r'.hist && Gone(r', n)
  {
    GoneForever(r, r', step, n);
  }
}
