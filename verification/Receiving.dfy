/** A consumer of a ring whose writer stands still gets what is there: wherever it stands, dense ring
    or sparse, finitely many of its actions return the next message present, past holes and past
    what was overwritten. */
module Receiving {
  import opened Basics
  import opened Modular
  import opened SlotProtocol
  import opened C = Consumer

  predicate CanAct(r: Ring, c: Consumer) {
    Shape(r) && (c.pc.Reading? && c.pc.rd.Copied? ==> |c.pc.rd.buf| <= r.width)
  }

  /** So many actions of a consumer while the writer stands still. */
  predicate ActsTo(r: Ring, c: Consumer, c': Consumer, sparse: bool, n: nat)
    decreases n
  {
    if n == 0 then c == c' else CanAct(r, c) && ActsTo(r, Act(r, c, sparse), c', sparse, n - 1)
  }

  lemma {:induction false} ActsJoin(r: Ring, a: Consumer, b: Consumer, c: Consumer, sparse: bool, m: nat, n: nat)
    requires ActsTo(r, a, b, sparse, m) && ActsTo(r, b, c, sparse, n)
    ensures ActsTo(r, a, c, sparse, m + n)
    decreases m
  {
    if m > 0 { ActsJoin(r, Act(r, a, sparse), b, c, sparse, m - 1, n); }
  }

  /** Some number of actions. */
  ghost predicate Reaches(r: Ring, c: Consumer, c': Consumer, sparse: bool) {
    exists n: nat :: ActsTo(r, c, c', sparse, n)
  }

  lemma ReachesJoin(r: Ring, a: Consumer, b: Consumer, c: Consumer, sparse: bool)
    requires Reaches(r, a, b, sparse) && Reaches(r, b, c, sparse)
    ensures Reaches(r, a, c, sparse)
  {
    var m: nat :| ActsTo(r, a, b, sparse, m);
    var n: nat :| ActsTo(r, b, c, sparse, n);
    ActsJoin(r, a, b, c, sparse, m, n);
  }

  /** Everything written is announced and nothing is being written. */
  predicate Still(r: Ring, sparse: bool) {
    RingOk(r) && (sparse || Dense(r)) && r.writer.Quiet? && r.writeSeq == r.top
  }

  /** None of these messages that the ring still retains is in its slot. */
  predicate NothingIn(r: Ring, a: nat, b: nat)
    requires Shape(r)
  {
    forall n :: a <= n < b && n + r.cap > r.writeSeq ==> !Readable(r, n)
  }

  /** One message returned, whole, with whatever lies before it counted as lapped, and nothing that
      was there passed. */
  predicate Gets(r: Ring, c: Consumer, c': Consumer)
    requires Shape(r)
  {
    c'.cursor > c.cursor &&
    var n := c'.cursor - 1;
    && n in r.hist && (Readable(r, n) || c.pc.Reading?) && NothingIn(r, c.cursor, n)
    && c'.delivered == c.delivered + [Message(n, r.hist[n])]
    && c'.lapped == c.lapped + (n - c.cursor)
  }

  /** Nothing returned, and nothing that was there passed. */
  predicate Passes(r: Ring, c: Consumer, c': Consumer)
    requires Shape(r)
  {
    && c.cursor <= c'.cursor <= Max(c.cursor, r.writeSeq + 1) && NothingIn(r, c.cursor, c'.cursor) && c'.delivered == c.delivered
    && c'.lapped == c.lapped + (c'.cursor - c.cursor)
  }

  predicate GetsOrPasses(r: Ring, c: Consumer, c': Consumer)
    requires Shape(r)
  {
    Gets(r, c, c') || (Passes(r, c, c') && c'.cursor > c.cursor)
  }

  // ------------------------------------------------------------------ single actions

  /** What is reached from a consumer. */
  ghost predicate Next(r: Ring, c: Consumer, c': Consumer, sparse: bool) {
    Shape(r) && Reaches(r, c, c', sparse) && ConsumerOk(r, c')
  }

  lemma NextJoin(r: Ring, a: Consumer, b: Consumer, c: Consumer, sparse: bool)
    requires Next(r, a, b, sparse) && Next(r, b, c, sparse)
    ensures Next(r, a, c, sparse)
  {
    ReachesJoin(r, a, b, c, sparse);
  }

  lemma Act1(r: Ring, c: Consumer, sparse: bool) returns (c': Consumer)
    requires RingOk(r) && ConsumerOk(r, c)
    ensures CanAct(r, c) && c' == Act(r, c, sparse) && Next(r, c, c', sparse)
  {
    ActKeeps(r, c, sparse);
    c' := Act(r, c, sparse);
    assert ActsTo(r, c', c', sparse, 0);
    assert ActsTo(r, c, c', sparse, 1);
  }

  /** What the slot of an announced sequence holds. */
  lemma AnnouncedSlot(r: Ring, n: nat, sparse: bool)
    requires Still(r, sparse) && 1 <= n <= r.writeSeq
    ensures WordAt(r, n).Seq?
    ensures WordAt(r, n).n > n ==> n + r.cap <= WordAt(r, n).n <= r.top
    ensures WordAt(r, n).n < n ==> sparse
    ensures Readable(r, n) ==> n in r.hist && SlotOf(r, n).data == r.hist[n]
  {
    assert SlotOk(r, Ix(n, r.cap));
    if WordAt(r, n).n > n { SlotMovedOn(r, n); }
  }

  // ------------------------------------------------------------------ reads and laps

  lemma FromLapped(r: Ring, c: Consumer, sparse: bool) returns (c': Consumer)
    requires Still(r, sparse) && ConsumerOk(r, c) && c.pc.Lapped?
    ensures Next(r, c, c', sparse) && Passes(r, c, c') && c'.pc.Idle?
    ensures c'.cursor == c.cursor ==> c' == c.(pc := Idle)
    ensures c.cursor + r.cap <= r.top ==> c'.cursor > c.cursor
  {
    c' := Act1(r, c, sparse);
  }

  /** The words left to copy, and the second check. */
  lemma {:induction false} FromCopied(r: Ring, c: Consumer, sparse: bool) returns (c': Consumer)
    requires Still(r, sparse) && ConsumerOk(r, c) && c.pc.Reading? && c.pc.rd.Copied?
    ensures Next(r, c, c', sparse) && c'.pc.Reading? && c'.pc.rd.Done? && !c'.pc.rd.res.Pending?
    ensures c' == c.(pc := c'.pc) && (Readable(r, c.cursor) ==> c'.pc.rd.res.Item?)
    decreases r.width - |c.pc.rd.buf|
  {
    var d := Act1(r, c, sparse);
    c' := d;
    if !d.pc.rd.Done? {
      c' := FromCopied(r, d, sparse);
      NextJoin(r, c, d, c', sparse);
    }
  }

  /** A read that has its answer, other than that nothing is there yet. */
  lemma FromDone(r: Ring, c: Consumer, sparse: bool) returns (c': Consumer)
    requires Still(r, sparse) && ConsumerOk(r, c) && c.pc.Reading? && c.pc.rd.Done? && !c.pc.rd.res.Pending?
    ensures Next(r, c, c', sparse) && GetsOrPasses(r, c, c') && c'.pc.Idle?
    ensures if c.pc.rd.res.Item? then Gets(r, c, c') && c'.cursor == c.cursor + 1 else !Gets(r, c, c')
  {
    var d := Act1(r, c, sparse);
    c' := d;
    if c.pc.rd.res.Overwritten? {
      c' := FromLapped(r, d, sparse);
      NextJoin(r, c, d, c', sparse);
    }
  }

  lemma FromRead(r: Ring, c: Consumer, sparse: bool) returns (c': Consumer)
    requires Still(r, sparse) && ConsumerOk(r, c) && c.pc.Reading? && c.pc.rd.Copied?
    ensures Next(r, c, c', sparse) && GetsOrPasses(r, c, c') && c'.pc.Idle?
    ensures Readable(r, c.cursor) ==> Gets(r, c, c') && c'.cursor == c.cursor + 1
  {
    var d := FromCopied(r, c, sparse);
    c' := FromDone(r, d, sparse);
    NextJoin(r, c, d, c', sparse);
  }

  // ------------------------------------------------------------------ holes

  /** The consumer stands at an announced sequence whose slot is still at an older lap. */
  predicate AtHole(r: Ring, c: Consumer)
    requires Shape(r)
  {
    1 <= c.cursor <= r.writeSeq && WordAt(r, c.cursor).Seq? && WordAt(r, c.cursor).n < c.cursor
  }

  lemma ScannedIsAbsent(r: Ring, c: Consumer)
    requires RingOk(r) && ConsumerOk(r, c) && c.pc.HoleScan?
    ensures NothingIn(r, c.cursor, c.pc.next)
  {
    forall n | c.cursor <= n < c.pc.next && n + r.cap > r.writeSeq ensures !Readable(r, n) {
      assert Gone(r, n);
    }
  }

  lemma {:induction false} FromHoleScan(r: Ring, c: Consumer, sparse: bool) returns (c': Consumer)
    requires Still(r, sparse) && ConsumerOk(r, c) && c.pc.HoleScan?
    ensures Next(r, c, c', sparse) && Passes(r, c, c') && c'.cursor > c.cursor && c'.pc.Idle?
    decreases c.pc.ws + 1 - c.pc.next
  {
    ScannedIsAbsent(r, c);
    var d := Act1(r, c, sparse);
    c' := d;
    if d.pc.HoleScan? {
      c' := FromHoleScan(r, d, sparse);
      NextJoin(r, c, d, c', sparse);
    }
  }

  lemma FromHoleCheck(r: Ring, c: Consumer, sparse: bool) returns (c': Consumer)
    requires Still(r, sparse) && ConsumerOk(r, c) && c.pc.HoleCheck? && AtHole(r, c)
    ensures Next(r, c, c', sparse) && Passes(r, c, c') && c'.cursor > c.cursor && c'.pc.Idle?
  {
    var d := Act1(r, c, sparse);
    c' := FromHoleScan(r, d, sparse);
    NextJoin(r, c, d, c', sparse);
  }

  lemma FromHoleLoad(r: Ring, c: Consumer, sparse: bool) returns (c': Consumer)
    requires Still(r, sparse) && ConsumerOk(r, c) && c.pc.HoleLoad? && AtHole(r, c)
    ensures Next(r, c, c', sparse) && Passes(r, c, c') && c'.cursor > c.cursor && c'.pc.Idle?
  {
    var d := Act1(r, c, sparse);
    c' := FromHoleCheck(r, d, sparse);
    NextJoin(r, c, d, c', sparse);
  }

  /** A poll that finds nothing. */
  lemma Poll(r: Ring, c: Consumer) returns (c': Consumer)
    requires Still(r, true) && ConsumerOk(r, c) && c.pc.Idle? && AtHole(r, c)
    ensures Next(r, c, c', true)
    ensures var polls := (c.polls + 1) % 0x1_0000_0000;
            c' == c.(polls := polls, pc := if polls % 64 == 0 then HoleLoad else Idle)
  {
    var d := Act1(r, c, true);
    var e := Act1(r, d, true);
    c' := Act1(r, e, true);
    NextJoin(r, c, d, e, true);
    NextJoin(r, c, e, c', true);
  }

  lemma PollsTick(polls: nat)
    ensures (polls + 1) % 0x1_0000_0000 % 64 == (if polls % 64 == 63 then 0 else polls % 64 + 1)
  {
    var laps := (polls + 1) / 0x1_0000_0000;
    assert polls + 1 == (polls + 1) % 0x1_0000_0000 + 64 * (laps * 0x400_0000);
  }

  /** At most 64 polls find nothing at a hole; then it is skipped. */
  lemma {:induction false} FromHole(r: Ring, c: Consumer) returns (c': Consumer)
    requires Still(r, true) && ConsumerOk(r, c) && c.pc.Idle? && AtHole(r, c)
    ensures Next(r, c, c', true) && Passes(r, c, c') && c'.cursor > c.cursor && c'.pc.Idle?
    decreases 64 - c.polls % 64
  {
    PollsTick(c.polls);
    var d := Poll(r, c);
    if d.pc.HoleLoad? { c' := FromHoleLoad(r, d, true); } else { c' := FromHole(r, d); }
    NextJoin(r, c, d, c', true);
  }

  // ------------------------------------------------------------------ onwards from anywhere

  lemma FromIdle(r: Ring, c: Consumer, sparse: bool) returns (c': Consumer)
    requires Still(r, sparse) && ConsumerOk(r, c) && c.pc.Idle? && c.cursor <= r.writeSeq
    ensures Next(r, c, c', sparse) && GetsOrPasses(r, c, c') && c'.pc.Idle?
    ensures Readable(r, c.cursor) ==> Gets(r, c, c') && c'.cursor == c.cursor + 1
  {
    AnnouncedSlot(r, c.cursor, sparse);
    if WordAt(r, c.cursor).n < c.cursor {
      c' := FromHole(r, c);
    } else {
      var d := Act1(r, c, sparse);
      var e := Act1(r, d, sparse);
      NextJoin(r, c, d, e, sparse);
      if e.pc.rd.Copied? { c' := FromRead(r, e, sparse); } else { c' := FromDone(r, e, sparse); }
      NextJoin(r, c, e, c', sparse);
    }
  }

  lemma FromHoleLook(r: Ring, c: Consumer, sparse: bool) returns (c': Consumer)
    requires Still(r, sparse) && ConsumerOk(r, c) && (c.pc.HoleLoad? || c.pc.HoleCheck?) && c.cursor <= r.writeSeq
    ensures Next(r, c, c', sparse) && GetsOrPasses(r, c, c') && c'.pc.Idle?
  {
    AnnouncedSlot(r, c.cursor, sparse);
    if c.pc.HoleCheck? && AtHole(r, c) {
      c' := FromHoleCheck(r, c, sparse);
    } else if AtHole(r, c) {
      c' := FromHoleLoad(r, c, sparse);
    } else {
      var d := Act1(r, c, sparse);
      if d.pc.HoleCheck? {
        var e := Act1(r, d, sparse);
        NextJoin(r, c, d, e, sparse);
        d := e;
      }
      c' := FromIdle(r, d, sparse);
      NextJoin(r, c, d, c', sparse);
    }
  }

  lemma FromAnswer(r: Ring, c: Consumer, sparse: bool) returns (c': Consumer)
    requires Still(r, sparse) && ConsumerOk(r, c) && c.pc.Reading? && !c.pc.rd.Start? && c.cursor <= r.writeSeq
    ensures Next(r, c, c', sparse) && GetsOrPasses(r, c, c') && c'.pc.Idle?
  {
    if c.pc.rd.Copied? {
      c' := FromRead(r, c, sparse);
    } else if !c.pc.rd.res.Pending? {
      c' := FromDone(r, c, sparse);
    } else {
      var d := Act1(r, c, sparse);
      if d.pc.HoleLoad? { c' := FromHoleLook(r, d, sparse); } else { c' := FromIdle(r, d, sparse); }
      NextJoin(r, c, d, c', sparse);
    }
  }

  /** Wherever it stands in its loops, a consumer that is behind returns a message or moves on. */
  lemma Onwards(r: Ring, c: Consumer, sparse: bool) returns (c': Consumer)
    requires Still(r, sparse) && ConsumerOk(r, c) && c.cursor <= r.writeSeq
    ensures Next(r, c, c', sparse) && GetsOrPasses(r, c, c') && c'.pc.Idle?
  {
    match c.pc
    case Idle => c' := FromIdle(r, c, sparse);
    case HoleScan(_, _) => c' := FromHoleScan(r, c, sparse);
    case Lapped(_) =>
      var d := FromLapped(r, c, sparse);
      c' := d;
      if d.cursor == c.cursor {
        c' := FromIdle(r, d, sparse);
        NextJoin(r, c, d, c', sparse);
      }
    case Reading(rd) =>
      if rd.Start? {
        var d := Act1(r, c, sparse);
        c' := FromAnswer(r, d, sparse);
        NextJoin(r, c, d, c', sparse);
      } else {
        c' := FromAnswer(r, c, sparse);
      }
    case _ => c' := FromHoleLook(r, c, sparse);
  }

  lemma PassedBefore(r: Ring, a: Consumer, b: Consumer, c: Consumer)
    requires Shape(r) && Passes(r, a, b) && b.pc.Idle?
    ensures Gets(r, b, c) ==> Gets(r, a, c)
    ensures Passes(r, b, c) ==> Passes(r, a, c)
  {
  }

  /** While the writer stands still, finitely many actions of a consumer return the next message
      there is, or, if there is none, bring it past the announced sequence. Nothing retained that is
      there is passed. */
  lemma {:induction false} NextIsReturned(r: Ring, c: Consumer, sparse: bool) returns (c': Consumer)
    requires Still(r, sparse) && ConsumerOk(r, c)
    ensures Next(r, c, c', sparse)
    ensures Gets(r, c, c') || (Passes(r, c, c') && c'.cursor == Max(c.cursor, r.writeSeq + 1))
    decreases r.writeSeq + 1 - c.cursor
  {
    if c.cursor > r.writeSeq {
      c' := c;
      assert ActsTo(r, c, c', sparse, 0);
    } else {
      var d := Onwards(r, c, sparse);
      c' := d;
      if !Gets(r, c, d) {
        c' := NextIsReturned(r, d, sparse);
        PassedBefore(r, c, d, c');
        NextJoin(r, c, d, c', sparse);
      }
    }
  }

  /** Message after message, finitely many actions bring a consumer past the announced sequence. */
  lemma {:induction false} ReadsEverything(r: Ring, c: Consumer, sparse: bool) returns (c': Consumer)
    requires Still(r, sparse) && ConsumerOk(r, c)
    ensures Next(r, c, c', sparse) && c'.cursor == Max(c.cursor, r.writeSeq + 1) && c'.start == c.start
    ensures c.delivered <= c'.delivered
    decreases r.writeSeq + 1 - c.cursor
  {
    var d := NextIsReturned(r, c, sparse);
    StartStays(r, c, d, sparse);
    c' := d;
    if Gets(r, c, d) {
      GotIsAnnounced(r, c, d);
      c' := ReadsEverything(r, d, sparse);
      NextJoin(r, c, d, c', sparse);
    }
  }

  lemma GotIsAnnounced(r: Ring, c: Consumer, d: Consumer)
    requires RingOk(r) && r.writeSeq == r.top && Gets(r, c, d)
    ensures d.cursor <= r.writeSeq + 1
  {
  }

  lemma {:induction false} StartKept(r: Ring, c: Consumer, c': Consumer, sparse: bool, n: nat)
    requires ActsTo(r, c, c', sparse, n)
    ensures c'.start == c.start
    decreases n
  {
    if n > 0 { StartKept(r, Act(r, c, sparse), c', sparse, n - 1); }
  }

  lemma StartStays(r: Ring, c: Consumer, c': Consumer, sparse: bool)
    requires Reaches(r, c, c', sparse)
    ensures c'.start == c.start
  {
    var n: nat :| ActsTo(r, c, c', sparse, n);
    StartKept(r, c, c', sparse, n);
  }

  /** A call of `next_item` or a poll that begins at a message in its slot returns it. */
  lemma MessageAtCursorIsReturned(r: Ring, c: Consumer, sparse: bool)
    requires Still(r, sparse) && ConsumerOk(r, c) && c.pc.Idle? && c.cursor <= r.writeSeq && Readable(r, c.cursor)
    ensures c.cursor in r.hist
    ensures exists c' :: && Reaches(r, c, c', sparse) && c'.cursor == c.cursor + 1 && c'.lapped == c.lapped
                         && c'.delivered == c.delivered + [Message(c.cursor, r.hist[c.cursor])]
  {
    AnnouncedSlot(r, c.cursor, sparse);
    var c' := FromIdle(r, c, sparse);
    assert Reaches(r, c, c', sparse);
  }

  /** The first message present at or above the cursor is the one returned, whatever holes lie in
      front of it, and what lies in front is counted as lapped. */
  lemma FirstPresentIsReturned(r: Ring, c: Consumer, sparse: bool, n: nat)
    requires Still(r, sparse) && ConsumerOk(r, c) && !c.pc.Reading?
    requires c.cursor <= n <= r.writeSeq < n + r.cap && Readable(r, n)
    requires forall k :: c.cursor <= k < n ==> !Readable(r, k)
    ensures n in r.hist
    ensures exists c' :: && Reaches(r, c, c', sparse) && c'.cursor == n + 1 && c'.lapped == c.lapped + (n - c.cursor)
                         && c'.delivered == c.delivered + [Message(n, r.hist[n])]
  {
    AnnouncedSlot(r, n, sparse);
    var c' := NextIsReturned(r, c, sparse);
    assert Reaches(r, c, c', sparse);
  }

  /** With nothing there to return the consumer still gets past the announced sequence, so that it
      is in place for the next message. */
  lemma HolesAreSkipped(r: Ring, c: Consumer, sparse: bool)
    requires Still(r, sparse) && ConsumerOk(r, c) && !c.pc.Reading?
    requires forall k :: c.cursor <= k <= r.writeSeq ==> !Readable(r, k)
    ensures exists c' :: && Reaches(r, c, c', sparse) && c'.cursor == Max(c.cursor, r.writeSeq + 1)
                         && c'.delivered == c.delivered && c'.lapped == c.lapped + (c'.cursor - c.cursor)
  {
    var c' := NextIsReturned(r, c, sparse);
    assert Reaches(r, c, c', sparse);
  }

  // ------------------------------------------------------------------ every call returns

  function Rank(pc: Pc): nat {
    match pc
    case Idle => 0
    case Lapped(_) => 1
    case HoleScan(_, _) => 1
    case HoleCheck(_) => 2
    case HoleLoad => 3
    case Reading(rd) => if rd.Done? then 4 else if rd.Copied? then 5 else 6
  }

  function Left(r: Ring, pc: Pc): nat {
    match pc
    case Reading(Copied(buf)) => if |buf| <= r.width then r.width - |buf| else 0
    case HoleScan(ws, next) => if next <= ws then ws + 1 - next else 0
    case _ => 0
  }

  /** A receive never blocks: whatever the writer was doing when it stopped, the call a consumer is in
      comes to its end by finitely many of the consumer's own actions. */
  lemma {:induction false} CallsReturn(r: Ring, c: Consumer, sparse: bool) returns (c': Consumer)
    requires RingOk(r) && ConsumerOk(r, c)
    ensures Next(r, c, c', sparse) && c'.pc.Idle?
    decreases Rank(c.pc), Left(r, c.pc)
  {
    c' := c;
    assert ActsTo(r, c, c, sparse, 0);
    if !c.pc.Idle? {
      var d := Act1(r, c, sparse);
      c' := CallsReturn(r, d, sparse);
      NextJoin(r, c, d, c', sparse);
    }
  }

  // ------------------------------------------------------------------ in every run

  /** The writer has come to rest, and the consumer is not in the middle of a slot. */
  predicate AtRest(s: System) {
    s.ring.writer.Quiet? && s.ring.writeSeq == s.ring.top && !s.consumer.pc.Reading?
  }

  /** Whenever the writer has come to rest in a run, dense or sparse, the consumer's own actions lead
      to the first message there is at or above its cursor. */
  lemma RunsReturnFirstPresent(run: seq<System>, mode: StartMode, sparse: bool, i: nat, n: nat)
    requires Run(run, mode, sparse) && i < |run| && AtRest(run[i]) && Shape(run[i].ring)
    requires run[i].consumer.cursor <= n <= run[i].ring.writeSeq < n + run[i].ring.cap && Readable(run[i].ring, n)
    requires forall k :: run[i].consumer.cursor <= k < n ==> !Readable(run[i].ring, k)
    ensures n in run[i].ring.hist
    ensures var (r, c) := (run[i].ring, run[i].consumer);
            exists c' :: && Reaches(r, c, c', sparse) && c'.cursor == n + 1 && c'.lapped == c.lapped + (n - c.cursor)
                         && c'.delivered == c.delivered + [Message(n, r.hist[n])]
  {
    RunKeeps(run, mode, sparse, i);
    FirstPresentIsReturned(run[i].ring, run[i].consumer, sparse, n);
  }

  /** And with no message there, past the announced sequence. */
  lemma RunsSkipHoles(run: seq<System>, mode: StartMode, sparse: bool, i: nat)
    requires Run(run, mode, sparse) && i < |run| && AtRest(run[i]) && Shape(run[i].ring)
    requires forall k :: run[i].consumer.cursor <= k <= run[i].ring.writeSeq ==> !Readable(run[i].ring, k)
    ensures var (r, c) := (run[i].ring, run[i].consumer);
            exists c' :: && Reaches(r, c, c', sparse) && c'.cursor == Max(c.cursor, r.writeSeq + 1)
                         && c'.delivered == c.delivered && c'.lapped == c.lapped + (c'.cursor - c.cursor)
  {
    RunKeeps(run, mode, sparse, i);
    HolesAreSkipped(run[i].ring, run[i].consumer, sparse);
  }
}
