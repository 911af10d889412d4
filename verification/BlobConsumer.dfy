/** Receiving blobs: `next_blob` reads a slot, checks the descriptor, copies the payload byte by
    byte out of the arena and checks again, while the producer goes on. On a sparse ring, such as a
    mirror's, it also skips holes. */
module BlobConsumer {
  import opened Basics
  import opened Modular
  import opened SlotProtocol
  import opened Arena
  import opened BlobRing
  import C = Consumer

  datatype Delivery = Delivery(seq_: nat, descriptor: seq<int>, bytes: seq<Byte>)

  /** Between calls, reading a slot, about to skip because the slot held `seen`, holding a
      descriptor, copying the blob it names, or in one of the loads of `skip_hole`. */
  datatype Pc =
    | Idle
    | Reading(rd: Read)
    | Lapped(seen: nat)
    | Described(descriptor: seq<Byte>, blob: BlobRef)
    | Viewing(descriptor: seq<Byte>, blob: BlobRef, buf: seq<Byte>)
    | HoleLoad
    | HoleCheck(ws: nat)
    | HoleScan(ws: nat, next: nat)

  datatype Consumer = Consumer(start: nat, cursor: nat, lapped: nat, delivered: seq<Delivery>, polls: nat, pc: Pc)

  function Attach(s: State): Consumer
    requires s.ring.cap >= 1
  {
    var oldest := OldestRetained(s.ring.writeSeq, s.ring.cap);
    Consumer(oldest, oldest, 0, [], 0, Idle)
  }

  // ------------------------------------------------------------------ steps

  /** The slot words of a message, which are bytes. */
  predicate IsDescriptor(d: seq<int>) {
    |d| >= Wire.BLOB_REF_LEN && forall k :: 0 <= k < |d| ==> 0 <= d[k] < 256
  }

  function SkipCurrent(c: Consumer): Consumer { c.(cursor := c.cursor + 1, lapped := c.lapped + 1, pc := Idle) }

  function SkipTo(c: Consumer, n: nat): Consumer
    requires n > c.cursor
  {
    c.(cursor := n, lapped := c.lapped + (n - c.cursor), pc := Idle)
  }

  /** Nothing is there yet: every 64th time on a sparse ring a hole is looked for. */
  function Polled(c: Consumer, sparse: bool): Consumer {
    if !sparse then c.(pc := Idle)
    else
      var polls := (c.polls + 1) % 0x1_0000_0000;
      c.(polls := polls, pc := if polls % 64 == 0 then HoleLoad else Idle)
  }

  predicate Actable(s: State, c: Consumer) {
    && Shape(s.ring) && |s.data| >= 1
    && match c.pc
       case Reading(rd) => (rd.Copied? ==> |rd.buf| <= s.ring.width) && (rd.Done? && rd.res.Item? ==> IsDescriptor(rd.res.data))
       case Viewing(_, b, _) => InBounds(b, |s.data|)
       case HoleScan(_, next) => c.cursor < next
       case _ => true
  }

  /** One load of `skip_hole`. */
  function HoleAct(r: Ring, c: Consumer): Consumer
    requires Shape(r) && (c.pc.HoleLoad? || c.pc.HoleCheck? || (c.pc.HoleScan? && c.cursor < c.pc.next))
  {
    match c.pc
    case HoleLoad => if r.writeSeq < c.cursor then c.(pc := Idle) else c.(pc := HoleCheck(r.writeSeq))
    case HoleCheck(ws) =>
      if C.WordAt(r, c.cursor).Writing? || C.WordAt(r, c.cursor).n >= c.cursor then c.(pc := Idle)
      else c.(pc := HoleScan(ws, Max(OldestRetained(ws, r.cap), c.cursor + 1)))
    case HoleScan(ws, next) =>
      if next <= ws && C.WordAt(r, next) != Seq(next) then c.(pc := HoleScan(ws, next + 1)) else SkipTo(c, next)
  }

  /** The next action. `fits` says whether the caller's buffer holds the payload. */
  function Act(s: State, c: Consumer, fits: bool, sparse: bool): Consumer
    requires Actable(s, c)
  {
    match c.pc
    case Idle => c.(pc := Reading(Start))
    case Reading(Done(Item(d))) => c.(pc := Described(d, RefOf(d)))
    case Reading(Done(Pending)) => Polled(c, sparse)
    case Reading(Done(Overwritten(seen))) => c.(pc := Lapped(seen))
    case Reading(rd) => c.(pc := Reading(ReadStep(s.ring, c.cursor, rd)))
    case Lapped(seen) =>
      var oldest := OldestRetained(Max(s.ring.writeSeq, seen), s.ring.cap);
      if oldest > c.cursor then SkipTo(c, oldest) else c.(pc := Idle)
    case Described(d, b) =>
      if !InBounds(b, |s.data|) || IsLapped(s.reserved, b, |s.data|) then SkipCurrent(c)
      else if !fits then c.(pc := Idle)
      else c.(pc := Viewing(d, b, []))
    case Viewing(d, b, buf) =>
      if |buf| < b.len then c.(pc := Viewing(d, b, buf + [s.data[At(b, |buf|, |s.data|)]]))
      else if IsLapped(s.reserved, b, |s.data|) then SkipCurrent(c)
      else c.(delivered := c.delivered + [Delivery(c.cursor, d, buf)], cursor := c.cursor + 1, pc := Idle)
    case _ => HoleAct(s.ring, c)
  }

  // ------------------------------------------------------------------ invariant

  predicate IsMessage(s: State, n: nat) { n in s.ring.hist && n in s.sent }

  /** The message's slot can never be read again or lies a full ring back, or a whole arena and more
      was reserved since its blob. */
  predicate Lost(s: State, n: nat)
    requires Shape(s.ring)
  {
    C.OutOfReach(s.ring, n) || (n in s.sent && IsLapped(s.reserved, s.sent[n].blob, |s.data|))
  }

  predicate DeliveredTrue(s: State, c: Consumer) {
    && (forall i :: 0 <= i < |c.delivered| ==>
          && c.start <= c.delivered[i].seq_ < c.cursor && IsMessage(s, c.delivered[i].seq_)
          && c.delivered[i].descriptor == s.sent[c.delivered[i].seq_].descriptor
          && c.delivered[i].bytes == s.sent[c.delivered[i].seq_].payload)
    && (forall i, j :: 0 <= i < j < |c.delivered| ==> c.delivered[i].seq_ < c.delivered[j].seq_)
  }

  predicate Delivered(c: Consumer, n: nat) { exists i :: 0 <= i < |c.delivered| && c.delivered[i].seq_ == n }

  predicate Passed(s: State, c: Consumer)
    requires Shape(s.ring)
  {
    forall n :: c.start <= n < c.cursor ==> Delivered(c, n) || Lost(s, n)
  }

  predicate Describes(s: State, n: nat, d: seq<Byte>, b: BlobRef) {
    IsMessage(s, n) && d == s.sent[n].descriptor && b == s.sent[n].blob
  }

  predicate PcOk(s: State, c: Consumer)
    requires Shape(s.ring)
  {
    match c.pc
    case Idle => true
    case Reading(rd) => ReadInv(s.ring, c.cursor, rd)
    case Lapped(seen) => seen <= s.ring.top
    case Described(d, b) => Describes(s, c.cursor, d, b)
    case Viewing(d, b, buf) => Describes(s, c.cursor, d, b) && CopyOk(s, s.sent[c.cursor], buf)
    case HoleLoad => true
    case HoleCheck(ws) => c.cursor <= ws <= s.ring.writeSeq
    case HoleScan(ws, next) =>
      && c.cursor <= ws <= s.ring.writeSeq && c.cursor < next <= ws + 1 && Gone(s.ring, c.cursor)
      && C.ScannedGone(s.ring, ws, c.cursor + 1, next)
  }

  predicate ConsumerOk(s: State, c: Consumer)
    requires Shape(s.ring)
  {
    && 1 <= c.start <= c.cursor && |c.delivered| + c.lapped == c.cursor - c.start
    && DeliveredTrue(s, c) && Passed(s, c) && PcOk(s, c)
  }

  /** A message's slot words are a descriptor, and name its blob. */
  lemma MessageDescribes(g: Geometry, s: State, n: nat)
    requires StateOk(g, s) && NamesOk(g, s) && g.hasArena && n in s.ring.hist
    ensures IsMessage(s, n)
    ensures var p := s.sent[n];
            && s.ring.hist[n] == p.descriptor && IsDescriptor(p.descriptor) && RefOf(p.descriptor) == p.blob
  {
    assert PacketOk(g, s, s.sent[n]);
  }

  /** A message just read from its slot describes its blob. */
  predicate ItemNamed(s: State, c: Consumer) {
    c.pc.Reading? && c.pc.rd.Done? && c.pc.rd.res.Item? ==>
      IsDescriptor(c.pc.rd.res.data) && Describes(s, c.cursor, c.pc.rd.res.data, RefOf(c.pc.rd.res.data))
  }

  lemma PassedFurther(s: State, c: Consumer, c': Consumer)
    requires Shape(s.ring) && Passed(s, c) && c.start == c'.start && c.delivered <= c'.delivered && c.cursor <= c'.cursor
    requires forall n :: c.cursor <= n < c'.cursor ==> Delivered(c', n) || Lost(s, n)
    ensures Passed(s, c')
  {
    forall n | c'.start <= n < c'.cursor ensures Delivered(c', n) || Lost(s, n) {
      if n < c.cursor && Delivered(c, n) {
        var i :| 0 <= i < |c.delivered| && c.delivered[i].seq_ == n;
        assert c'.delivered[i].seq_ == n;
      }
    }
  }

  lemma MessageBounds(g: Geometry, s: State, n: nat)
    requires StateOk(g, s) && IsMessage(s, n)
    ensures var p := s.sent[n];
            p.blob.len == |p.payload| && InBounds(p.blob, |s.data|) && (p.payload == [] ==> p.blob == EMPTY)
  {
    assert PacketOk(g, s, s.sent[n]);
  }

  lemma DescribedKeeps(s: State, c: Consumer, fits: bool, sparse: bool)
    requires Shape(s.ring) && ConsumerOk(s, c) && Actable(s, c) && c.pc.Described? && InBounds(c.pc.blob, |s.data|)
    ensures ConsumerOk(s, Act(s, c, fits, sparse))
  {
    PassedFurther(s, c, Act(s, c, fits, sparse));
  }

  lemma DeliverKeeps(s: State, c: Consumer, fits: bool, sparse: bool)
    requires Shape(s.ring) && ConsumerOk(s, c) && Actable(s, c) && c.pc.Viewing?
    requires c.pc.blob.len == |s.sent[c.cursor].payload| == |c.pc.buf|
    ensures ConsumerOk(s, Act(s, c, fits, sparse))
  {
    var c' := Act(s, c, fits, sparse);
    if !IsLapped(s.reserved, c.pc.blob, |s.data|) {
      assert c.pc.buf == s.sent[c.cursor].payload;
      assert c'.delivered[|c.delivered|].seq_ == c.cursor;
    }
    PassedFurther(s, c, c');
  }

  lemma CopyKeeps(s: State, c: Consumer, fits: bool, sparse: bool)
    requires Shape(s.ring) && ConsumerOk(s, c) && Actable(s, c) && c.pc.Viewing? && |c.pc.buf| < c.pc.blob.len
    requires At(c.pc.blob, |c.pc.buf|, |s.data|) < |s.data|
    requires CopyOk(s, s.sent[c.cursor], c.pc.buf + [s.data[At(c.pc.blob, |c.pc.buf|, |s.data|)]])
    ensures ConsumerOk(s, Act(s, c, fits, sparse))
  {
    PassedFurther(s, c, Act(s, c, fits, sparse));
  }

  lemma NextByte(g: Geometry, s: State, c: Consumer)
    requires StateOk(g, s) && ConsumerOk(s, c) && c.pc.Viewing? && |c.pc.buf| < c.pc.blob.len
    ensures InBounds(c.pc.blob, |s.data|) && At(c.pc.blob, |c.pc.buf|, |s.data|) < |s.data|
    ensures CopyOk(s, s.sent[c.cursor], c.pc.buf + [s.data[At(c.pc.blob, |c.pc.buf|, |s.data|)]])
  {
    MessageBounds(g, s, c.cursor);
    CopyByte(g, s, c.cursor, c.pc.buf);
  }

  lemma ViewingKeeps(g: Geometry, s: State, c: Consumer, fits: bool, sparse: bool)
    requires StateOk(g, s) && ConsumerOk(s, c) && Actable(s, c) && c.pc.Viewing?
    ensures ConsumerOk(s, Act(s, c, fits, sparse))
  {
    if |c.pc.buf| < c.pc.blob.len {
      NextByte(g, s, c);
      CopyKeeps(s, c, fits, sparse);
    } else {
      MessageBounds(g, s, c.cursor);
      DeliverKeeps(s, c, fits, sparse);
    }
  }

  lemma SkipKeeps(s: State, c: Consumer, n: nat)
    requires Shape(s.ring) && ConsumerOk(s, c) && n > c.cursor
    requires forall k :: c.cursor <= k < n ==> C.OutOfReach(s.ring, k)
    ensures ConsumerOk(s, SkipTo(c, n))
  {
    PassedFurther(s, c, SkipTo(c, n));
  }

  lemma LappedKeeps(s: State, c: Consumer, fits: bool, sparse: bool)
    requires RingOk(s.ring) && ConsumerOk(s, c) && Actable(s, c) && c.pc.Lapped?
    ensures ConsumerOk(s, Act(s, c, fits, sparse))
  {
    var oldest := OldestRetained(Max(s.ring.writeSeq, c.pc.seen), s.ring.cap);
    if oldest > c.cursor { SkipKeeps(s, c, oldest); }
  }

  lemma ReadingKeeps(s: State, c: Consumer, fits: bool, sparse: bool)
    requires RingOk(s.ring) && ConsumerOk(s, c) && Actable(s, c) && c.pc.Reading? && ItemNamed(s, c)
    ensures ConsumerOk(s, Act(s, c, fits, sparse))
  {
    if !c.pc.rd.Done? { ReadStepKeeps(s.ring, c.cursor, c.pc.rd); }
  }

  /** Finding the cursor's slot at an older lap once more has been announced means a hole. */
  lemma HoleIsReal(s: State, c: Consumer)
    requires RingOk(s.ring) && ConsumerOk(s, c) && c.pc.HoleCheck?
    requires C.WordAt(s.ring, c.cursor).Seq? && C.WordAt(s.ring, c.cursor).n < c.cursor
    ensures Gone(s.ring, c.cursor) && c.cursor !in s.ring.hist
  {
    assert SlotOk(s.ring, Ix(c.cursor, s.ring.cap));
  }

  lemma HoleScanKeeps(s: State, c: Consumer)
    requires RingOk(s.ring) && ConsumerOk(s, c) && c.pc.HoleScan?
    ensures ConsumerOk(s, HoleAct(s.ring, c))
  {
    var (ws, next) := (c.pc.ws, c.pc.next);
    if next <= ws && C.WordAt(s.ring, next) != Seq(next) {
      C.AbsentIsGone(s.ring, ws, next);
    } else {
      SkipKeeps(s, c, next);
    }
  }

  lemma HoleKeeps(s: State, c: Consumer)
    requires RingOk(s.ring) && ConsumerOk(s, c) && (c.pc.HoleLoad? || c.pc.HoleCheck? || c.pc.HoleScan?)
    ensures ConsumerOk(s, HoleAct(s.ring, c))
  {
    match c.pc
    case HoleLoad =>
    case HoleCheck(_) =>
      if C.WordAt(s.ring, c.cursor).Seq? && C.WordAt(s.ring, c.cursor).n < c.cursor { HoleIsReal(s, c); }
    case HoleScan(_, _) => HoleScanKeeps(s, c);
  }

  lemma ItemDescribes(g: Geometry, s: State, c: Consumer)
    requires StateOk(g, s) && NamesOk(g, s) && g.hasArena && ConsumerOk(s, c)
    ensures ItemNamed(s, c)
  {
    if c.pc.Reading? && c.pc.rd.Done? && c.pc.rd.res.Item? { MessageDescribes(g, s, c.cursor); }
  }

  lemma ActKeeps(g: Geometry, s: State, c: Consumer, fits: bool, sparse: bool)
    requires StateOk(g, s) && ConsumerOk(s, c) && Actable(s, c) && ItemNamed(s, c)
    ensures ConsumerOk(s, Act(s, c, fits, sparse))
  {
    match c.pc
    case Idle =>
    case Reading(_) => ReadingKeeps(s, c, fits, sparse);
    case Lapped(_) => LappedKeeps(s, c, fits, sparse);
    case Described(_, _) =>
      MessageBounds(g, s, c.cursor);
      DescribedKeeps(s, c, fits, sparse);
    case Viewing(_, _, _) => ViewingKeeps(g, s, c, fits, sparse);
    case _ => HoleKeeps(s, c);
  }

  /** The next action of a consumer is always defined. */
  lemma OkIsActable(g: Geometry, s: State, c: Consumer)
    requires StateOk(g, s) && ConsumerOk(s, c) && ItemNamed(s, c)
    ensures Actable(s, c)
  {
    if c.pc.Viewing? { MessageBounds(g, s, c.cursor); }
  }

  // ------------------------------------------------------------------ the producer meanwhile

  /** What the producer's actions leave of the ring for a consumer. */
  ghost predicate MovesOn(s: State, s': State) {
    && Shape(s.ring) && Shape(s'.ring) && Advances(s, s') && s.ring.top <= s'.ring.top
    && s.ring.writeSeq <= s'.ring.writeSeq && s.ring.cap == s'.ring.cap
    && (forall n :: n in s.ring.hist ==> n in s'.ring.hist)
    && (forall n :: Gone(s.ring, n) ==> Gone(s'.ring, n))
  }

  lemma HistoryMoves(s: State, s': State, c: Consumer)
    requires MovesOn(s, s') && DeliveredTrue(s, c) && Passed(s, c)
    ensures DeliveredTrue(s', c) && Passed(s', c)
  {
    forall n | c.start <= n < c.cursor ensures Delivered(c, n) || Lost(s', n) {
      assert Delivered(c, n) || Lost(s, n);
    }
  }

  lemma PcMoves(s: State, s': State, c: Consumer)
    requires MovesOn(s, s') && PcOk(s, c) && !c.pc.Reading?
    ensures PcOk(s', c)
  {
    if c.pc.Viewing? { CopyUndisturbed(s, s', s.sent[c.cursor], c.pc.buf); }
  }

  lemma PushKeepsConsumer(g: Geometry, s: State, s': State, step: PushStep, c: Consumer)
    requires StateOk(g, s) && Pushes(g, s, s', step) && ConsumerOk(s, c)
    ensures Shape(s'.ring) && ConsumerOk(s', c)
  {
    PushKeeps(g, s, s', step);
    RingMoves(g, s, s', step);
    HistoryMoves(s, s', c);
    if c.pc.Reading? { ReadMoves(g, s, s', step, c.cursor, c.pc.rd); } else { PcMoves(s, s', c); }
  }

  // ------------------------------------------------------------------ runs

  datatype System = System(state: State, consumer: Consumer)

  datatype Step = Receive(fits: bool) | Push(p: PushStep)

  /** One action of the consumer, or of a producer; on a sparse ring, of a mirror. */
  predicate NextStep(g: Geometry, sparse: bool, s: System, s': System, step: Step) {
    match step
    case Receive(fits) =>
      Actable(s.state, s.consumer) && s' == s.(consumer := Act(s.state, s.consumer, fits, sparse))
    case Push(p) =>
      s' == s.(state := s'.state) && Pushes(g, s.state, s'.state, p) && (!sparse ==> ByProducer(s.state, p))
  }

  ghost predicate Steps(g: Geometry, sparse: bool, s: System, s': System) {
    exists step :: NextStep(g, sparse, s, s', step)
  }

  ghost predicate StepAt(g: Geometry, sparse: bool, run: seq<System>, i: nat)
    requires 0 < i < |run|
  {
    Steps(g, sparse, run[i - 1], run[i])
  }

  ghost predicate RingSide(g: Geometry, sparse: bool, s: State) {
    g.hasArena && StateOk(g, s) && NamesOk(g, s) && (!sparse ==> Gapless(s))
  }

  /** A consumer attaches to a ring in any reachable state and reads on while the producer pushes. */
  ghost predicate Run(g: Geometry, sparse: bool, run: seq<System>) {
    && run != [] && RingSide(g, sparse, run[0].state) && run[0].consumer == Attach(run[0].state)
    && forall i :: 0 < i < |run| ==> StepAt(g, sparse, run, i)
  }

  ghost predicate Inv(g: Geometry, sparse: bool, s: System) {
    RingSide(g, sparse, s.state) && ConsumerOk(s.state, s.consumer)
  }

  lemma PushKeepsRingSide(g: Geometry, sparse: bool, s: State, s': State, step: PushStep)
    requires RingSide(g, sparse, s) && Pushes(g, s, s', step) && (!sparse ==> ByProducer(s, step))
    ensures RingSide(g, sparse, s')
  {
    PushKeeps(g, s, s', step);
    PushKeepsNames(g, s, s', step);
    if !sparse { PushKeepsGapless(g, s, s', step); }
  }

  lemma AttachHolds(g: Geometry, s: State)
    requires StateOk(g, s)
    ensures ConsumerOk(s, Attach(s))
  {
  }

  /** A consumer begins at the oldest announced message that is retained. */
  lemma AttachPlaces(s: State)
    requires s.ring.cap >= 1
    ensures var c := Attach(s);
            C.Places(C.Oldest, s.ring.writeSeq, s.ring.cap, c.cursor, c.lapped) && c.start == c.cursor && c.delivered == []
  {
  }

  lemma StepKeeps(g: Geometry, sparse: bool, s: System, s': System, step: Step)
    requires Inv(g, sparse, s) && NextStep(g, sparse, s, s', step)
    ensures Inv(g, sparse, s')
  {
    match step
    case Receive(fits) =>
      ItemDescribes(g, s.state, s.consumer);
      ActKeeps(g, s.state, s.consumer, fits, sparse);
    case Push(p) =>
      PushKeepsRingSide(g, sparse, s.state, s'.state, p);
      PushKeepsConsumer(g, s.state, s'.state, p, s.consumer);
  }

  lemma StepsKeep(g: Geometry, sparse: bool, s: System, s': System)
    requires Inv(g, sparse, s) && Steps(g, sparse, s, s')
    ensures Inv(g, sparse, s')
  {
    var step :| NextStep(g, sparse, s, s', step);
    StepKeeps(g, sparse, s, s', step);
  }

  lemma RunBegins(g: Geometry, sparse: bool, run: seq<System>)
    requires Run(g, sparse, run)
    ensures Inv(g, sparse, run[0])
  {
    AttachHolds(g, run[0].state);
  }

  lemma RunKeeps(g: Geometry, sparse: bool, run: seq<System>, i: nat)
    requires Run(g, sparse, run) && i < |run|
    ensures Inv(g, sparse, run[i])
  {
    RunBegins(g, sparse, run);
    var k, s := 0, run[0];
    while k < i
      invariant k <= i && s == run[k] && Inv(g, sparse, s)
    {
      assert StepAt(g, sparse, run, k + 1);
      StepsKeep(g, sparse, s, run[k + 1]);
      k, s := k + 1, run[k + 1];
    }
  }

  /** A receive never gets stuck: in every state of every run the consumer's next load or copied byte
      is defined and in bounds. */
  lemma ReceivesGoOn(g: Geometry, sparse: bool, run: seq<System>, i: nat, fits: bool)
    requires Run(g, sparse, run) && i < |run|
    ensures Actable(run[i].state, run[i].consumer)
    ensures NextStep(g, sparse, run[i], run[i].(consumer := Act(run[i].state, run[i].consumer, fits, sparse)), Receive(fits))
  {
    RunKeeps(g, sparse, run, i);
    ItemDescribes(g, run[i].state, run[i].consumer);
    OkIsActable(g, run[i].state, run[i].consumer);
  }

  /** Every pair of metadata and payload returned is one that was pushed, whole, in increasing
      sequence order; deliveries plus the lapped count are the cursor's advance. */
  lemma BlobDeliveriesAreFaithful(g: Geometry, sparse: bool, run: seq<System>, i: nat)
    requires Run(g, sparse, run) && i < |run|
    ensures var (s, c) := (run[i].state, run[i].consumer);
            DeliveredTrue(s, c) && |c.delivered| + c.lapped == c.cursor - c.start
  {
    RunKeeps(g, sparse, run, i);
  }

  /** A message passed without being returned can never be read again, or lost its payload to more
      than an arena's worth of later reservations; on a dense ring it was pushed, and lost its slot to
      a message a full ring later or its payload. */
  lemma OnlyLostBlobsAreSkipped(g: Geometry, sparse: bool, run: seq<System>, i: nat, n: nat)
    requires Run(g, sparse, run) && i < |run|
    requires run[i].consumer.start <= n < run[i].consumer.cursor && !Delivered(run[i].consumer, n)
    ensures Shape(run[i].state.ring) && Lost(run[i].state, n)
    ensures !sparse ==> var s := run[i].state;
            n in s.sent && (n + s.ring.cap <= s.ring.top || s.reserved > s.sent[n].blob.offset + |s.data|)
  {
    RunKeeps(g, sparse, run, i);
    var s := run[i].state;
    if !sparse && C.OutOfReach(s.ring, n) { DenseGone(s.ring, n); }
  }

  /** A skip of a hole passes no message of the window that is in its slot, and stops at one that is or
      just past the announced sequence it started from. */
  lemma SkipHoleSkipsOnlyHoles(s: State, c: Consumer)
    requires RingOk(s.ring) && ConsumerOk(s, c) && c.pc.HoleScan? && !HoleAct(s.ring, c).pc.HoleScan?
    ensures var c' := HoleAct(s.ring, c); var ws := c.pc.ws;
            && c'.cursor > c.cursor && c'.lapped == c.lapped + (c'.cursor - c.cursor) && c'.delivered == c.delivered
            && (forall n :: c.cursor <= n < c'.cursor && n + s.ring.cap > ws ==> Gone(s.ring, n))
            && (c'.cursor == ws + 1 || Readable(s.ring, c'.cursor))
  {
    assert C.ScannedGone(s.ring, c.pc.ws, c.cursor + 1, c.pc.next);
  }

  predicate LooksForHoles(c: Consumer) { c.pc.HoleLoad? || c.pc.HoleCheck? || c.pc.HoleScan? }

  lemma DenseStepStays(g: Geometry, s: System, s': System)
    requires Steps(g, false, s, s') && !LooksForHoles(s.consumer)
    ensures !LooksForHoles(s'.consumer)
  {
    var step :| NextStep(g, false, s, s', step);
  }

  /** On a dense ring holes are never looked for. */
  lemma DenseNeverLooksForHoles(g: Geometry, run: seq<System>, i: nat)
    requires Run(g, false, run) && i < |run|
    ensures !LooksForHoles(run[i].consumer)
  {
    var k, s := 0, run[0];
    while k < i
      invariant k <= i && s == run[k] && !LooksForHoles(s.consumer)
    {
      assert StepAt(g, false, run, k + 1);
      DenseStepStays(g, s, run[k + 1]);
      k, s := k + 1, run[k + 1];
    }
  }

  /** The consumer is at one of its two checks of the message at the cursor: with the descriptor in
      hand, or with the payload copied. */
  predicate AtCheck(c: Consumer) { c.pc.Described? || (c.pc.Viewing? && |c.pc.buf| == c.pc.blob.len) }

  /** Empty payloads share one descriptor at offset 0: at either check the consumer drops one as
      lapped exactly when more than an arena has been reserved in all, though it has no bytes to
      lose. */
  lemma EmptyPayloadsCountAsLapped(g: Geometry, sparse: bool, run: seq<System>, i: nat, fits: bool)
    requires Run(g, sparse, run) && i < |run| && (run[i].consumer.pc.Described? || run[i].consumer.pc.Viewing?)
    requires IsMessage(run[i].state, run[i].consumer.cursor)
    requires run[i].state.sent[run[i].consumer.cursor].payload == []
    ensures Actable(run[i].state, run[i].consumer) && AtCheck(run[i].consumer)
    ensures Act(run[i].state, run[i].consumer, fits, sparse) == SkipCurrent(run[i].consumer)
            <==> run[i].state.reserved > |run[i].state.data|
  {
    RunKeeps(g, sparse, run, i);
    EmptyBlobHeld(g, run[i].state, run[i].consumer);
    EmptyBlobLapped(run[i].state, run[i].consumer, fits, sparse);
  }

  lemma EmptyBlobHeld(g: Geometry, s: State, c: Consumer)
    requires StateOk(g, s) && ConsumerOk(s, c) && (c.pc.Described? || c.pc.Viewing?)
    requires s.sent[c.cursor].payload == []
    ensures Actable(s, c) && c.pc.blob == EMPTY && (c.pc.Viewing? ==> c.pc.buf == [])
  {
    MessageBounds(g, s, c.cursor);
  }

  lemma EmptyBlobLapped(s: State, c: Consumer, fits: bool, sparse: bool)
    requires Actable(s, c) && (c.pc.Described? || c.pc.Viewing?) && c.pc.blob == EMPTY
    requires c.pc.Viewing? ==> c.pc.buf == []
    ensures Act(s, c, fits, sparse) == SkipCurrent(c) <==> s.reserved > |s.data|
  {
  }
}
