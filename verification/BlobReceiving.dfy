/** A blob consumer of a ring whose writer stands still gets what is there: finitely many of its
    actions return the next message that is whole in slot and arena, past holes, past what was
    overwritten and past messages whose payload was. */
module BlobReceiving {
  import opened Basics
  import opened Modular
  import opened SlotProtocol
  import opened Arena
  import opened BlobRing
  import opened B = BlobConsumer
  import C = Consumer
  import Receiving

  /** So many actions of a consumer whose buffer holds every payload, while the writer stands still. */
  predicate ActsTo(s: State, c: Consumer, c': Consumer, sparse: bool, n: nat)
    decreases n
  {
    if n == 0 then c == c' else Actable(s, c) && ActsTo(s, Act(s, c, true, sparse), c', sparse, n - 1)
  }

  lemma {:induction false} ActsJoin(s: State, a: Consumer, b: Consumer, c: Consumer, sparse: bool, m: nat, n: nat)
    requires ActsTo(s, a, b, sparse, m) && ActsTo(s, b, c, sparse, n)
    ensures ActsTo(s, a, c, sparse, m + n)
    decreases m
  {
    if m > 0 { ActsJoin(s, Act(s, a, true, sparse), b, c, sparse, m - 1, n); }
  }

  ghost predicate Reaches(s: State, c: Consumer, c': Consumer, sparse: bool) {
    exists n: nat :: ActsTo(s, c, c', sparse, n)
  }

  lemma ReachesJoin(s: State, a: Consumer, b: Consumer, c: Consumer, sparse: bool)
    requires Reaches(s, a, b, sparse) && Reaches(s, b, c, sparse)
    ensures Reaches(s, a, c, sparse)
  {
    var m: nat :| ActsTo(s, a, b, sparse, m);
    var n: nat :| ActsTo(s, b, c, sparse, n);
    ActsJoin(s, a, b, c, sparse, m, n);
  }

  // ------------------------------------------------------------------ what is known of a ring at rest

  /** Message `n` has a descriptor that names its blob, and its bytes are there unless it is lapped. */
  predicate Carries(s: State, n: nat) {
    |s.data| >= 1 && n in s.sent &&
    var p := s.sent[n];
    && IsDescriptor(p.descriptor) && RefOf(p.descriptor) == p.blob
    && InBounds(p.blob, |s.data|) && p.blob.len == |p.payload|
    && (!IsLapped(s.reserved, p.blob, |s.data|) ==>
          forall k :: 0 <= k < p.blob.len ==> At(p.blob, k, |s.data|) < |s.data| && s.data[At(p.blob, k, |s.data|)] == p.payload[k])
  }

  /** What the slot of an announced sequence tells. */
  predicate SlotTells(s: State, n: nat, sparse: bool)
    requires Shape(s.ring)
  {
    var slot := SlotOf(s.ring, n);
    && slot.word.Seq? && (slot.word.n > n ==> n + s.ring.cap <= slot.word.n <= s.ring.top) && (slot.word.n < n ==> sparse)
    && (slot.word.n == n ==> Carries(s, n) && slot.data == s.sent[n].descriptor)
  }

  /** Nothing is being written to a slot and all that is written is announced. */
  predicate Resting(s: State, sparse: bool) {
    && Shape(s.ring) && |s.data| >= 1 && s.ring.writeSeq == s.ring.top
    && forall n :: 1 <= n <= s.ring.writeSeq ==> SlotTells(s, n, sparse)
  }

  ghost predicate Still(g: Geometry, s: State, sparse: bool) {
    RingSide(g, sparse, s) && s.ring.writer.Quiet? && s.ring.writeSeq == s.ring.top
  }

  lemma SentCarries(g: Geometry, s: State, n: nat)
    requires StateOk(g, s) && NamesOk(g, s) && g.hasArena && n in s.ring.hist && !s.ring.writer.Copying?
    ensures Carries(s, n) && s.ring.hist[n] == s.sent[n].descriptor
  {
    MessageDescribes(g, s, n);
    MessageBounds(g, s, n);
    if !IsLapped(s.reserved, s.sent[n].blob, |s.data|) { SentBytes(g, s, n); }
  }

  lemma SentBytes(g: Geometry, s: State, n: nat)
    requires StateOk(g, s) && n in s.ring.hist && n in s.sent && |s.data| >= 1
    requires InBounds(s.sent[n].blob, |s.data|) && s.sent[n].blob.len == |s.sent[n].payload|
    requires !IsLapped(s.reserved, s.sent[n].blob, |s.data|)
    ensures var p := s.sent[n];
            forall k :: 0 <= k < p.blob.len ==> At(p.blob, k, |s.data|) < |s.data| && s.data[At(p.blob, k, |s.data|)] == p.payload[k]
  {
    assert BytesOk(s, n);
    assert Filled(s, n) == |s.sent[n].payload|;
  }

  lemma StillIsResting(g: Geometry, s: State, sparse: bool)
    requires Still(g, s, sparse)
    ensures Resting(s, sparse)
  {
    forall n | 1 <= n <= s.ring.writeSeq ensures SlotTells(s, n, sparse) {
      SlotIsKnown(g, s, n, sparse);
    }
  }

  lemma SlotIsKnown(g: Geometry, s: State, n: nat, sparse: bool)
    requires Still(g, s, sparse) && 1 <= n <= s.ring.writeSeq
    ensures SlotTells(s, n, sparse)
  {
    Receiving.AnnouncedSlot(s.ring, n, sparse);
    if Readable(s.ring, n) { SentCarries(g, s, n); }
  }

  /** Message `n` is in its slot and its payload has not been reserved over. */
  predicate Whole(s: State, n: nat)
    requires Shape(s.ring)
  {
    Readable(s.ring, n) && n in s.sent && !IsLapped(s.reserved, s.sent[n].blob, |s.data|)
  }

  /** None of these messages that the ring still retains is whole. */
  predicate NothingIn(s: State, a: nat, b: nat)
    requires Shape(s.ring)
  {
    forall n :: a <= n < b && n + s.ring.cap > s.ring.writeSeq ==> !Whole(s, n)
  }

  predicate UnderWay(c: Consumer) { c.pc.Reading? || c.pc.Described? || c.pc.Viewing? }

  /** One message returned with metadata and payload as pushed, what lies before it counted as lapped,
      and nothing that was whole passed. */
  predicate Gets(s: State, c: Consumer, c': Consumer)
    requires Shape(s.ring)
  {
    c.cursor < c'.cursor <= s.ring.writeSeq + 1 &&
    var n := c'.cursor - 1;
    && n in s.sent && (Whole(s, n) || UnderWay(c)) && NothingIn(s, c.cursor, n)
    && c'.delivered == c.delivered + [Delivery(n, s.sent[n].descriptor, s.sent[n].payload)]
    && c'.lapped == c.lapped + (n - c.cursor)
  }

  /** Nothing returned, and nothing that was whole passed. */
  predicate Passes(s: State, c: Consumer, c': Consumer)
    requires Shape(s.ring)
  {
    && c.cursor <= c'.cursor <= Max(c.cursor, s.ring.writeSeq + 1) && NothingIn(s, c.cursor, c'.cursor)
    && c'.delivered == c.delivered && c'.lapped == c.lapped + (c'.cursor - c.cursor)
  }

  predicate GetsOrPasses(s: State, c: Consumer, c': Consumer)
    requires Shape(s.ring)
  {
    Gets(s, c, c') || (Passes(s, c, c') && c'.cursor > c.cursor)
  }

  // ------------------------------------------------------------------ what the consumer knows

  /** What a consumer holds in the middle of a call is true of the ring at rest. */
  predicate Fine(s: State, c: Consumer)
    requires Shape(s.ring)
  {
    1 <= c.cursor &&
    match c.pc
    case Reading(Copied(buf)) =>
      && c.cursor <= s.ring.writeSeq && |buf| <= s.ring.width
      && (if Readable(s.ring, c.cursor) then buf == SlotOf(s.ring, c.cursor).data[..|buf|]
          else c.cursor + s.ring.cap <= s.ring.top)
    case Reading(Done(Item(d))) => c.cursor <= s.ring.writeSeq && Carries(s, c.cursor) && d == s.sent[c.cursor].descriptor
    case Reading(Done(Overwritten(seen))) => c.cursor + s.ring.cap <= s.ring.top && seen <= s.ring.top
    case Lapped(seen) => seen <= s.ring.top
    case Described(d, b) =>
      && c.cursor <= s.ring.writeSeq && Carries(s, c.cursor) && d == s.sent[c.cursor].descriptor
      && b == s.sent[c.cursor].blob
    case Viewing(d, b, buf) =>
      && c.cursor <= s.ring.writeSeq && Carries(s, c.cursor) && d == s.sent[c.cursor].descriptor
      && b == s.sent[c.cursor].blob && |buf| <= b.len
      && (!IsLapped(s.reserved, b, |s.data|) ==> buf == s.sent[c.cursor].payload[..|buf|])
    case HoleCheck(ws) => c.cursor <= ws <= s.ring.writeSeq
    case HoleScan(ws, next) => ws <= s.ring.writeSeq && c.cursor < next <= ws + 1 && NothingIn(s, c.cursor, next)
    case _ => true
  }

  lemma ScannedIsAbsent(s: State, c: Consumer)
    requires RingOk(s.ring) && B.PcOk(s, c) && c.pc.HoleScan?
    ensures NothingIn(s, c.cursor, c.pc.next)
  {
    forall n | c.cursor <= n < c.pc.next && n + s.ring.cap > s.ring.writeSeq ensures !Readable(s.ring, n) {
      assert Gone(s.ring, n);
    }
  }

  lemma HoldingIsFine(g: Geometry, s: State, c: Consumer)
    requires StateOk(g, s) && NamesOk(g, s) && g.hasArena && !s.ring.writer.Copying? && s.ring.writeSeq == s.ring.top
    requires ConsumerOk(s, c) && (c.pc.Described? || c.pc.Viewing? || (c.pc.Reading? && c.pc.rd.Done?))
    ensures Fine(s, c)
  {
    if c.pc.Described? || c.pc.Viewing? || (c.pc.Reading? && c.pc.rd.Done? && c.pc.rd.res.Item?) {
      SentCarries(g, s, c.cursor);
    }
  }

  /** A consumer of any run is fine. */
  lemma OkIsFine(g: Geometry, s: State, c: Consumer, sparse: bool)
    requires Still(g, s, sparse) && ConsumerOk(s, c)
    ensures Fine(s, c)
  {
    if c.pc.HoleScan? {
      ScannedIsAbsent(s, c);
    } else if c.pc.Reading? && c.pc.rd.Copied? {
      Receiving.AnnouncedSlot(s.ring, c.cursor, sparse);
      SentCarries(g, s, c.cursor);
      assert SlotOk(s.ring, Ix(c.cursor, s.ring.cap));
      if !Readable(s.ring, c.cursor) { ReusedSlot(s.ring, c.cursor); }
    } else if c.pc.Described? || c.pc.Viewing? || c.pc.Reading? {
      if !c.pc.Reading? || c.pc.rd.Done? { HoldingIsFine(g, s, c); }
    }
  }

  // ------------------------------------------------------------------ single actions

  /** What is reached from a consumer. */
  ghost predicate Next(s: State, c: Consumer, c': Consumer, sparse: bool) {
    Shape(s.ring) && Reaches(s, c, c', sparse) && Fine(s, c')
  }

  lemma NextJoin(s: State, a: Consumer, b: Consumer, c: Consumer, sparse: bool)
    requires Next(s, a, b, sparse) && Next(s, b, c, sparse)
    ensures Next(s, a, c, sparse)
  {
    ReachesJoin(s, a, b, c, sparse);
  }

  lemma ReadingStaysFine(s: State, c: Consumer, sparse: bool)
    requires Resting(s, sparse) && Fine(s, c) && c.cursor <= s.ring.writeSeq && Actable(s, c) && c.pc.Reading?
    ensures Fine(s, Act(s, c, true, sparse))
  {
    assert SlotTells(s, c.cursor, sparse);
  }

  lemma HoldingStaysFine(s: State, c: Consumer, sparse: bool)
    requires Resting(s, sparse) && Fine(s, c) && Actable(s, c) && (c.pc.Described? || c.pc.Viewing?)
    ensures Fine(s, Act(s, c, true, sparse))
  {
  }

  lemma HoleStaysFine(s: State, c: Consumer, sparse: bool)
    requires Resting(s, sparse) && Fine(s, c) && Actable(s, c) && (c.pc.HoleCheck? || c.pc.HoleScan?)
    requires c.cursor <= s.ring.writeSeq
    ensures Fine(s, Act(s, c, true, sparse))
  {
    assert SlotTells(s, c.cursor, sparse);
  }

  lemma StaysFine(s: State, c: Consumer, sparse: bool)
    requires Resting(s, sparse) && Fine(s, c) && c.cursor <= s.ring.writeSeq
    ensures Actable(s, c) && Fine(s, Act(s, c, true, sparse))
  {
    if c.pc.Reading? { ReadingStaysFine(s, c, sparse); }
    else if c.pc.Described? || c.pc.Viewing? { HoldingStaysFine(s, c, sparse); }
    else if c.pc.HoleCheck? || c.pc.HoleScan? { HoleStaysFine(s, c, sparse); }
  }

  lemma Act1(s: State, c: Consumer, sparse: bool) returns (c': Consumer)
    requires Resting(s, sparse) && Fine(s, c) && c.cursor <= s.ring.writeSeq
    ensures Actable(s, c) && c' == Act(s, c, true, sparse) && Next(s, c, c', sparse)
  {
    StaysFine(s, c, sparse);
    c' := Act(s, c, true, sparse);
    assert ActsTo(s, c', c', sparse, 0);
    assert ActsTo(s, c, c', sparse, 1);
  }

  // ------------------------------------------------------------------ the payload

  /** A whole message copied out is returned, a lapped one skipped. */
  predicate Concludes(s: State, c: Consumer, c': Consumer)
    requires Shape(s.ring)
  {
    && c'.pc.Idle? && c'.cursor == c.cursor + 1 && c.cursor in s.sent
    && (if IsLapped(s.reserved, s.sent[c.cursor].blob, |s.data|) then c' == SkipCurrent(c).(pc := c'.pc) && Passes(s, c, c')
        else Gets(s, c, c'))
  }

  lemma Concluded(s: State, c: Consumer)
    requires Shape(s.ring) && c.cursor <= s.ring.writeSeq && c.cursor in s.sent && UnderWay(c)
    ensures var p := s.sent[c.cursor];
            Concludes(s, c, if IsLapped(s.reserved, p.blob, |s.data|) then SkipCurrent(c)
                            else c.(delivered := c.delivered + [Delivery(c.cursor, p.descriptor, p.payload)],
                                    cursor := c.cursor + 1, pc := Idle))
  {
  }

  /** The bytes left to copy, and the second check. */
  lemma {:induction false} FromViewing(s: State, c: Consumer, sparse: bool) returns (c': Consumer)
    requires Resting(s, sparse) && Fine(s, c) && c.pc.Viewing?
    ensures Next(s, c, c', sparse) && Concludes(s, c, c')
    decreases c.pc.blob.len - |c.pc.buf|
  {
    var d := Act1(s, c, sparse);
    c' := d;
    if d.pc.Viewing? {
      c' := FromViewing(s, d, sparse);
      NextJoin(s, c, d, c', sparse);
    } else {
      assert s.sent[c.cursor].payload[..|s.sent[c.cursor].payload|] == s.sent[c.cursor].payload;
      Concluded(s, c);
    }
  }

  lemma FromDescribed(s: State, c: Consumer, sparse: bool) returns (c': Consumer)
    requires Resting(s, sparse) && Fine(s, c) && c.pc.Described?
    ensures Next(s, c, c', sparse) && Concludes(s, c, c')
  {
    var d := Act1(s, c, sparse);
    c' := d;
    if d.pc.Viewing? {
      c' := FromViewing(s, d, sparse);
      NextJoin(s, c, d, c', sparse);
    } else {
      Concluded(s, c);
    }
  }

  // ------------------------------------------------------------------ reads and laps

  lemma FromLapped(s: State, c: Consumer, sparse: bool) returns (c': Consumer)
    requires Resting(s, sparse) && Fine(s, c) && c.pc.Lapped? && c.cursor <= s.ring.writeSeq
    ensures Next(s, c, c', sparse) && Passes(s, c, c') && c'.pc.Idle?
    ensures c'.cursor == c.cursor ==> c' == c.(pc := Idle)
    ensures c.cursor + s.ring.cap <= s.ring.top ==> c'.cursor > c.cursor
  {
    c' := Act1(s, c, sparse);
  }

  lemma {:induction false} FromCopied(s: State, c: Consumer, sparse: bool) returns (c': Consumer)
    requires Resting(s, sparse) && Fine(s, c) && c.pc.Reading? && c.pc.rd.Copied?
    ensures Next(s, c, c', sparse) && c'.pc.Reading? && c'.pc.rd.Done? && !c'.pc.rd.res.Pending?
    ensures c' == c.(pc := c'.pc) && (Readable(s.ring, c.cursor) ==> c'.pc.rd.res.Item?)
    decreases s.ring.width - |c.pc.rd.buf|
  {
    var d := Act1(s, c, sparse);
    c' := d;
    if !d.pc.rd.Done? {
      c' := FromCopied(s, d, sparse);
      NextJoin(s, c, d, c', sparse);
    }
  }

  lemma FromItem(s: State, c: Consumer, sparse: bool) returns (c': Consumer)
    requires Resting(s, sparse) && Fine(s, c) && c.pc.Reading? && c.pc.rd.Done? && c.pc.rd.res.Item?
    ensures Next(s, c, c', sparse) && Concludes(s, c, c')
  {
    var d := Act1(s, c, sparse);
    c' := FromDescribed(s, d, sparse);
    NextJoin(s, c, d, c', sparse);
  }

  lemma FromOverrun(s: State, c: Consumer, sparse: bool) returns (c': Consumer)
    requires Resting(s, sparse) && Fine(s, c) && c.pc.Reading? && c.pc.rd.Done? && c.pc.rd.res.Overwritten?
    requires c.cursor <= s.ring.writeSeq
    ensures Next(s, c, c', sparse) && c'.pc.Idle? && Passes(s, c, c') && c'.cursor > c.cursor
  {
    var d := Act1(s, c, sparse);
    c' := FromLapped(s, d, sparse);
    NextJoin(s, c, d, c', sparse);
  }

  lemma FromRead(s: State, c: Consumer, sparse: bool) returns (c': Consumer)
    requires Resting(s, sparse) && Fine(s, c) && c.pc.Reading? && c.pc.rd.Copied?
    ensures Next(s, c, c', sparse) && c'.pc.Idle? && GetsOrPasses(s, c, c')
    ensures Readable(s.ring, c.cursor) ==> Concludes(s, c, c')
  {
    var d := FromCopied(s, c, sparse);
    if d.pc.rd.res.Item? { c' := FromItem(s, d, sparse); } else { c' := FromOverrun(s, d, sparse); }
    NextJoin(s, c, d, c', sparse);
  }

  // ------------------------------------------------------------------ holes

  /** The consumer stands at an announced sequence whose slot is still at an older lap. */
  predicate AtHole(s: State, c: Consumer)
    requires Shape(s.ring)
  {
    1 <= c.cursor <= s.ring.writeSeq && C.WordAt(s.ring, c.cursor).Seq? && C.WordAt(s.ring, c.cursor).n < c.cursor
  }

  lemma {:induction false} FromHoleScan(s: State, c: Consumer, sparse: bool) returns (c': Consumer)
    requires Resting(s, sparse) && Fine(s, c) && c.pc.HoleScan?
    ensures Next(s, c, c', sparse) && Passes(s, c, c') && c'.cursor > c.cursor && c'.pc.Idle?
    decreases c.pc.ws + 1 - c.pc.next
  {
    var d := Act1(s, c, sparse);
    c' := d;
    if d.pc.HoleScan? {
      c' := FromHoleScan(s, d, sparse);
      NextJoin(s, c, d, c', sparse);
    }
  }

  lemma FromHoleCheck(s: State, c: Consumer, sparse: bool) returns (c': Consumer)
    requires Resting(s, sparse) && Fine(s, c) && c.pc.HoleCheck? && AtHole(s, c)
    ensures Next(s, c, c', sparse) && Passes(s, c, c') && c'.cursor > c.cursor && c'.pc.Idle?
  {
    var d := Act1(s, c, sparse);
    c' := FromHoleScan(s, d, sparse);
    NextJoin(s, c, d, c', sparse);
  }

  lemma FromHoleLoad(s: State, c: Consumer, sparse: bool) returns (c': Consumer)
    requires Resting(s, sparse) && Fine(s, c) && c.pc.HoleLoad? && AtHole(s, c)
    ensures Next(s, c, c', sparse) && Passes(s, c, c') && c'.cursor > c.cursor && c'.pc.Idle?
  {
    var d := Act1(s, c, sparse);
    c' := FromHoleCheck(s, d, sparse);
    NextJoin(s, c, d, c', sparse);
  }

  lemma Poll(s: State, c: Consumer) returns (c': Consumer)
    requires Resting(s, true) && Fine(s, c) && c.pc.Idle? && AtHole(s, c)
    ensures Next(s, c, c', true)
    ensures var polls := (c.polls + 1) % 0x1_0000_0000;
            c' == c.(polls := polls, pc := if polls % 64 == 0 then HoleLoad else Idle)
  {
    var d := Act1(s, c, true);
    var e := Act1(s, d, true);
    c' := Act1(s, e, true);
    NextJoin(s, c, d, e, true);
    NextJoin(s, c, e, c', true);
  }

  lemma {:induction false} FromHole(s: State, c: Consumer) returns (c': Consumer)
    requires Resting(s, true) && Fine(s, c) && c.pc.Idle? && AtHole(s, c)
    ensures Next(s, c, c', true) && Passes(s, c, c') && c'.cursor > c.cursor && c'.pc.Idle?
    decreases 64 - c.polls % 64
  {
    Receiving.PollsTick(c.polls);
    var d := Poll(s, c);
    if d.pc.HoleLoad? { c' := FromHoleLoad(s, d, true); } else { c' := FromHole(s, d); }
    NextJoin(s, c, d, c', true);
  }

  // ------------------------------------------------------------------ onwards from anywhere

  lemma FromIdle(s: State, c: Consumer, sparse: bool) returns (c': Consumer)
    requires Resting(s, sparse) && Fine(s, c) && c.pc.Idle? && c.cursor <= s.ring.writeSeq
    ensures Next(s, c, c', sparse) && GetsOrPasses(s, c, c') && c'.pc.Idle?
    ensures Whole(s, c.cursor) ==> Gets(s, c, c') && c'.cursor == c.cursor + 1
  {
    assert SlotTells(s, c.cursor, sparse);
    if C.WordAt(s.ring, c.cursor).n < c.cursor {
      c' := FromHole(s, c);
    } else {
      var d := Act1(s, c, sparse);
      var e := Act1(s, d, sparse);
      NextJoin(s, c, d, e, sparse);
      if e.pc.rd.Copied? { c' := FromRead(s, e, sparse); } else { c' := FromOverrun(s, e, sparse); }
      NextJoin(s, c, e, c', sparse);
    }
  }

  lemma FromHoleLook(s: State, c: Consumer, sparse: bool) returns (c': Consumer)
    requires Resting(s, sparse) && Fine(s, c) && (c.pc.HoleLoad? || c.pc.HoleCheck?) && c.cursor <= s.ring.writeSeq
    ensures Next(s, c, c', sparse) && GetsOrPasses(s, c, c') && c'.pc.Idle?
  {
    assert SlotTells(s, c.cursor, sparse);
    if c.pc.HoleCheck? && AtHole(s, c) {
      c' := FromHoleCheck(s, c, sparse);
    } else if AtHole(s, c) {
      c' := FromHoleLoad(s, c, sparse);
    } else {
      var d := Act1(s, c, sparse);
      if d.pc.HoleCheck? {
        var e := Act1(s, d, sparse);
        NextJoin(s, c, d, e, sparse);
        d := e;
      }
      c' := FromIdle(s, d, sparse);
      NextJoin(s, c, d, c', sparse);
    }
  }

  lemma FromPending(s: State, c: Consumer, sparse: bool) returns (c': Consumer)
    requires Resting(s, sparse) && Fine(s, c) && c.pc == Reading(Done(Pending)) && c.cursor <= s.ring.writeSeq
    ensures Next(s, c, c', sparse) && GetsOrPasses(s, c, c') && c'.pc.Idle?
  {
    var d := Act1(s, c, sparse);
    if d.pc.HoleLoad? { c' := FromHoleLook(s, d, sparse); } else { c' := FromIdle(s, d, sparse); }
    NextJoin(s, c, d, c', sparse);
  }

  lemma FromAnswer(s: State, c: Consumer, sparse: bool) returns (c': Consumer)
    requires Resting(s, sparse) && Fine(s, c) && c.pc.Reading? && !c.pc.rd.Start? && c.cursor <= s.ring.writeSeq
    ensures Next(s, c, c', sparse) && GetsOrPasses(s, c, c') && c'.pc.Idle?
  {
    match c.pc.rd
    case Copied(_) => c' := FromRead(s, c, sparse);
    case Done(Item(_)) => c' := FromItem(s, c, sparse);
    case Done(Overwritten(_)) => c' := FromOverrun(s, c, sparse);
    case _ => c' := FromPending(s, c, sparse);
  }

  lemma FromLook(s: State, c: Consumer, sparse: bool) returns (c': Consumer)
    requires Resting(s, sparse) && Fine(s, c) && c.cursor <= s.ring.writeSeq
    requires c.pc.Lapped? || (c.pc.Reading? && c.pc.rd.Start?)
    ensures Next(s, c, c', sparse) && GetsOrPasses(s, c, c') && c'.pc.Idle?
  {
    if c.pc.Reading? {
      var d := Act1(s, c, sparse);
      c' := FromAnswer(s, d, sparse);
      NextJoin(s, c, d, c', sparse);
    } else {
      var d := FromLapped(s, c, sparse);
      c' := d;
      if d.cursor == c.cursor {
        c' := FromIdle(s, d, sparse);
        NextJoin(s, c, d, c', sparse);
      }
    }
  }

  /** Wherever it stands in its loops, a consumer that is behind returns a message or moves on. */
  lemma Onwards(s: State, c: Consumer, sparse: bool) returns (c': Consumer)
    requires Resting(s, sparse) && Fine(s, c) && c.cursor <= s.ring.writeSeq
    ensures Next(s, c, c', sparse) && GetsOrPasses(s, c, c') && c'.pc.Idle?
  {
    match c.pc
    case Idle => c' := FromIdle(s, c, sparse);
    case HoleScan(_, _) => c' := FromHoleScan(s, c, sparse);
    case Described(_, _) => c' := FromDescribed(s, c, sparse);
    case Viewing(_, _, _) => c' := FromViewing(s, c, sparse);
    case Lapped(_) => c' := FromLook(s, c, sparse);
    case Reading(rd) => if rd.Start? { c' := FromLook(s, c, sparse); } else { c' := FromAnswer(s, c, sparse); }
    case _ => c' := FromHoleLook(s, c, sparse);
  }

  lemma PassedBefore(s: State, a: Consumer, b: Consumer, c: Consumer)
    requires Shape(s.ring) && Passes(s, a, b) && b.pc.Idle?
    ensures Gets(s, b, c) ==> Gets(s, a, c)
    ensures Passes(s, b, c) ==> Passes(s, a, c)
  {
  }

  lemma {:induction false} Arrives(s: State, c: Consumer, sparse: bool) returns (c': Consumer)
    requires Resting(s, sparse) && Fine(s, c)
    ensures Next(s, c, c', sparse)
    ensures Gets(s, c, c') || (Passes(s, c, c') && c'.cursor == Max(c.cursor, s.ring.writeSeq + 1))
    decreases s.ring.writeSeq + 1 - c.cursor
  {
    if c.cursor > s.ring.writeSeq {
      c' := c;
      assert ActsTo(s, c, c', sparse, 0);
    } else {
      var d := Onwards(s, c, sparse);
      c' := d;
      if !Gets(s, c, d) {
        c' := Arrives(s, d, sparse);
        PassedBefore(s, c, d, c');
        NextJoin(s, c, d, c', sparse);
      }
    }
  }

  /** While the writer stands still, finitely many actions of a consumer return the next message that
      is whole, with metadata and payload as pushed, or, if there is none, bring it past the announced
      sequence. Nothing retained that is whole is passed. */
  lemma NextBlobIsReturned(g: Geometry, s: State, c: Consumer, sparse: bool) returns (c': Consumer)
    requires Still(g, s, sparse) && ConsumerOk(s, c)
    ensures Reaches(s, c, c', sparse)
    ensures Gets(s, c, c') || (Passes(s, c, c') && c'.cursor == Max(c.cursor, s.ring.writeSeq + 1))
  {
    StillIsResting(g, s, sparse);
    OkIsFine(g, s, c, sparse);
    c' := Arrives(s, c, sparse);
  }

  lemma {:induction false} ArrivesAtEnd(s: State, c: Consumer, sparse: bool) returns (c': Consumer)
    requires Resting(s, sparse) && Fine(s, c)
    ensures Next(s, c, c', sparse) && c'.cursor == Max(c.cursor, s.ring.writeSeq + 1)
    decreases s.ring.writeSeq + 1 - c.cursor
  {
    var d := Arrives(s, c, sparse);
    c' := d;
    if Gets(s, c, d) {
      c' := ArrivesAtEnd(s, d, sparse);
      NextJoin(s, c, d, c', sparse);
    }
  }

  /** Message after message, finitely many actions bring a consumer past the announced sequence. */
  lemma ReceivesEverything(g: Geometry, s: State, c: Consumer, sparse: bool) returns (c': Consumer)
    requires Still(g, s, sparse) && ConsumerOk(s, c)
    ensures Reaches(s, c, c', sparse) && c'.cursor == Max(c.cursor, s.ring.writeSeq + 1)
  {
    StillIsResting(g, s, sparse);
    OkIsFine(g, s, c, sparse);
    c' := ArrivesAtEnd(s, c, sparse);
  }

  lemma FirstIsIt(s: State, c: Consumer, c': Consumer, n: nat)
    requires Shape(s.ring) && !UnderWay(c) && c.cursor <= n <= s.ring.writeSeq < n + s.ring.cap && Whole(s, n)
    requires forall k :: c.cursor <= k < n ==> !Whole(s, k)
    requires Gets(s, c, c') || (Passes(s, c, c') && c'.cursor == Max(c.cursor, s.ring.writeSeq + 1))
    ensures Gets(s, c, c') && c'.cursor == n + 1
  {
  }

  lemma FirstArrives(s: State, c: Consumer, sparse: bool, n: nat)
    requires Resting(s, sparse) && Fine(s, c) && !UnderWay(c)
    requires c.cursor <= n <= s.ring.writeSeq < n + s.ring.cap && Whole(s, n)
    requires forall k :: c.cursor <= k < n ==> !Whole(s, k)
    ensures exists c' :: && Reaches(s, c, c', sparse) && c'.cursor == n + 1 && c'.lapped == c.lapped + (n - c.cursor)
                         && c'.delivered == c.delivered + [Delivery(n, s.sent[n].descriptor, s.sent[n].payload)]
  {
    var c' := Arrives(s, c, sparse);
    FirstIsIt(s, c, c', n);
  }

  /** The first message at or above the cursor that is whole is the one returned, whatever holes and
      lost messages lie in front of it. */
  lemma FirstWholeIsReturned(g: Geometry, s: State, c: Consumer, sparse: bool, n: nat)
    requires Still(g, s, sparse) && ConsumerOk(s, c) && !UnderWay(c)
    requires c.cursor <= n <= s.ring.writeSeq < n + s.ring.cap && Whole(s, n)
    requires forall k :: c.cursor <= k < n ==> !Whole(s, k)
    ensures exists c' :: && Reaches(s, c, c', sparse) && c'.cursor == n + 1 && c'.lapped == c.lapped + (n - c.cursor)
                         && c'.delivered == c.delivered + [Delivery(n, s.sent[n].descriptor, s.sent[n].payload)]
  {
    StillIsResting(g, s, sparse);
    OkIsFine(g, s, c, sparse);
    FirstArrives(s, c, sparse, n);
  }

  // ------------------------------------------------------------------ every call returns

  function Rank(pc: B.Pc): nat {
    match pc
    case Idle => 0
    case Lapped(_) => 1
    case HoleScan(_, _) => 1
    case HoleCheck(_) => 2
    case HoleLoad => 3
    case Viewing(_, _, _) => 4
    case Described(_, _) => 5
    case Reading(rd) => if rd.Done? then 6 else if rd.Copied? then 7 else 8
  }

  function LeftToDo(s: State, pc: B.Pc): nat {
    match pc
    case Reading(Copied(buf)) => if |buf| <= s.ring.width then s.ring.width - |buf| else 0
    case Viewing(_, b, buf) => if |buf| <= b.len then b.len - |buf| else 0
    case HoleScan(ws, next) => if next <= ws then ws + 1 - next else 0
    case _ => 0
  }

  lemma ActComesCloser(s: State, c: Consumer, sparse: bool)
    requires Actable(s, c) && !c.pc.Idle?
    ensures var c' := Act(s, c, true, sparse);
            Rank(c'.pc) < Rank(c.pc) || (Rank(c'.pc) == Rank(c.pc) && LeftToDo(s, c'.pc) < LeftToDo(s, c.pc))
  {
  }

  /** One action in any state of the ring, and what it keeps. */
  lemma AnyAct(g: Geometry, s: State, c: Consumer, sparse: bool) returns (c': Consumer)
    requires RingSide(g, sparse, s) && ConsumerOk(s, c)
    ensures Actable(s, c) && c' == Act(s, c, true, sparse) && ConsumerOk(s, c') && Reaches(s, c, c', sparse)
  {
    ItemDescribes(g, s, c);
    OkIsActable(g, s, c);
    B.ActKeeps(g, s, c, true, sparse);
    c' := Act(s, c, true, sparse);
    assert ActsTo(s, c', c', sparse, 0);
    assert ActsTo(s, c, c', sparse, 1);
  }

  /** A receive never blocks: whatever the writer was doing when it stopped, the call a consumer is in
      comes to its end by finitely many of the consumer's own actions. */
  lemma {:induction false} CallsReturn(g: Geometry, s: State, c: Consumer, sparse: bool) returns (c': Consumer)
    requires RingSide(g, sparse, s) && ConsumerOk(s, c)
    ensures Reaches(s, c, c', sparse) && c'.pc.Idle?
    decreases Rank(c.pc), LeftToDo(s, c.pc)
  {
    c' := c;
    assert ActsTo(s, c, c, sparse, 0);
    if !c.pc.Idle? {
      var d := AnyAct(g, s, c, sparse);
      ActComesCloser(s, c, sparse);
      c' := CallsReturn(g, s, d, sparse);
      ReachesJoin(s, c, d, c', sparse);
    }
  }

  // ------------------------------------------------------------------ in every run

  /** In every run whose writer has come to rest, for a consumer between two messages. */
  lemma RunsReturnFirstWhole(g: Geometry, sparse: bool, run: seq<B.System>, i: nat, n: nat)
    requires B.Run(g, sparse, run) && i < |run| && Shape(run[i].state.ring) && !UnderWay(run[i].consumer)
    requires run[i].state.ring.writer.Quiet? && run[i].state.ring.writeSeq == run[i].state.ring.top
    requires run[i].consumer.cursor <= n <= run[i].state.ring.writeSeq < n + run[i].state.ring.cap && Whole(run[i].state, n)
    requires forall k :: run[i].consumer.cursor <= k < n ==> !Whole(run[i].state, k)
    ensures var (s, c) := (run[i].state, run[i].consumer);
            exists c' :: && Reaches(s, c, c', sparse) && c'.cursor == n + 1 && c'.lapped == c.lapped + (n - c.cursor)
                         && c'.delivered == c.delivered + [Delivery(n, s.sent[n].descriptor, s.sent[n].payload)]
  {
    B.RunKeeps(g, sparse, run, i);
    FirstWholeIsReturned(g, run[i].state, run[i].consumer, sparse, n);
  }

  /** A message too long for the caller's buffer is left where it is, for a call with a longer one. */
  lemma TooLongIsLeft(s: State, c: Consumer, sparse: bool)
    requires Actable(s, c) && c.pc.Described? && InBounds(c.pc.blob, |s.data|) && !IsLapped(s.reserved, c.pc.blob, |s.data|)
    ensures Act(s, c, false, sparse) == c.(pc := Idle)
  {
  }
}
