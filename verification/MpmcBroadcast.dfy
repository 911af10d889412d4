/** A broadcast consumer on a multi-producer ring: every reader sees every message, slots may be
    published out of order, and a reader that is outrun skips ahead by the announced sequence. */
module MpmcBroadcast {
  import opened Basics
  import opened Modular
  import opened Mpmc
  import MpmcQueue

  /** Between calls, looking at the slot, copying it, outrun by `seen`, or finding it unready. */
  datatype Pc = Quiet | Looking | Taking(buf: seq<int>) | Behind(seen: nat) | Unready

  datatype Reader = Reader(start: nat, cursor: nat, lapped: nat, delivered: seq<Message>, pc: Pc)

  predicate Actable(q: Queue, c: Reader) { Shape(q) && (c.pc.Taking? ==> |c.pc.buf| <= q.width) }

  /** The next load of `next_item`. */
  function Act(q: Queue, c: Reader): Reader
    requires Actable(q, c)
  {
    var slot := SlotOf(q, c.cursor);
    match c.pc
    case Quiet => c.(pc := Looking)
    case Looking =>
      if slot.word == Seq(c.cursor) then c.(pc := Taking([]))
      else if slot.word.Seq? && slot.word.n > c.cursor then c.(pc := Behind(slot.word.n))
      else c.(pc := Unready)
    case Taking(buf) =>
      if |buf| < q.width then c.(pc := Taking(buf + [slot.data[|buf|]]))
      else if slot.word == Seq(c.cursor) then
        c.(delivered := c.delivered + [Message(c.cursor, buf)], cursor := c.cursor + 1, pc := Quiet)
      else c.(pc := Behind(if slot.word.Writing? then 0 else slot.word.n))
    case Unready => if q.writeSeq >= c.cursor + q.cap then c.(pc := Behind(0)) else c.(pc := Quiet)
    case Behind(seen) =>
      var oldest := OldestRetained(Max(q.writeSeq, seen), q.cap);
      if oldest > c.cursor then c.(cursor := oldest, lapped := c.lapped + (oldest - c.cursor), pc := Looking)
      else c.(pc := Quiet)
  }

  // ------------------------------------------------------------------ invariant

  /** What is announced, or about to be, has been published. */
  predicate AnnouncedOk(q: Queue) {
    && (q.writeSeq != 0 ==> q.writeSeq in q.hist)
    && forall p :: 0 <= p < |q.producers| ==> q.producers[p].Publishing? ==> q.producers[p].seq_ in q.hist
  }

  /** A message a full ring newer than `n` has been published. */
  ghost predicate Outrun(q: Queue, n: nat) { exists m :: m in q.hist && m >= n + q.cap }

  predicate Returned(c: Reader, n: nat) { exists i :: 0 <= i < |c.delivered| && c.delivered[i].ticket == n }

  predicate DeliveredTrue(q: Queue, c: Reader) {
    && (forall i :: 0 <= i < |c.delivered| ==>
          && c.start <= c.delivered[i].ticket < c.cursor && c.delivered[i].ticket in q.hist
          && c.delivered[i].data == q.hist[c.delivered[i].ticket])
    && (forall i, j :: 0 <= i < j < |c.delivered| ==> c.delivered[i].ticket < c.delivered[j].ticket)
  }

  ghost predicate Passed(q: Queue, c: Reader) {
    forall n :: c.start <= n < c.cursor ==> Returned(c, n) || Outrun(q, n)
  }

  predicate PcOk(q: Queue, c: Reader)
    requires Shape(q)
  {
    match c.pc
    case Taking(buf) =>
      && c.cursor in q.hist && |buf| <= q.width == |q.hist[c.cursor]|
      && (SlotOf(q, c.cursor).word == Seq(c.cursor) ==> buf == q.hist[c.cursor][..|buf|])
    case Behind(seen) => seen != 0 ==> seen in q.hist
    case _ => true
  }

  ghost predicate ReaderOk(q: Queue, c: Reader)
    requires Shape(q)
  {
    && 1 <= c.start <= c.cursor && |c.delivered| + c.lapped == c.cursor - c.start
    && DeliveredTrue(q, c) && Passed(q, c) && PcOk(q, c)
  }

  lemma PassedFurther(q: Queue, c: Reader, c': Reader)
    requires Passed(q, c) && c'.start == c.start && c.delivered <= c'.delivered
    requires forall n :: c.cursor <= n < c'.cursor ==> Returned(c', n) || Outrun(q, n)
    ensures Passed(q, c')
  {
    forall n | c'.start <= n < c'.cursor ensures Returned(c', n) || Outrun(q, n) {
      if n < c.cursor && Returned(c, n) {
        var i :| 0 <= i < |c.delivered| && c.delivered[i].ticket == n;
        assert c'.delivered[i].ticket == n;
      }
    }
  }

  lemma TakingKeeps(q: Queue, c: Reader)
    requires RingOk(q) && ReaderOk(q, c) && c.pc.Taking? && Actable(q, c)
    ensures ReaderOk(q, Act(q, c))
  {
    assert SlotOk(q, Ix(c.cursor, q.cap));
    var c' := Act(q, c);
    if c'.cursor > c.cursor {
      assert c.pc.buf == q.hist[c.cursor];
      assert c'.delivered[|c.delivered|].ticket == c.cursor;
    }
    PassedFurther(q, c, c');
  }

  lemma LookingKeeps(q: Queue, c: Reader)
    requires RingOk(q) && ReaderOk(q, c) && c.pc.Looking? && Actable(q, c)
    ensures ReaderOk(q, Act(q, c))
  {
    assert SlotOk(q, Ix(c.cursor, q.cap));
  }

  lemma BehindKeeps(q: Queue, c: Reader)
    requires Shape(q) && AnnouncedOk(q) && ReaderOk(q, c) && c.pc.Behind? && Actable(q, c)
    ensures ReaderOk(q, Act(q, c))
  {
    var newest := Max(q.writeSeq, c.pc.seen);
    forall n | c.cursor <= n < Act(q, c).cursor ensures Outrun(q, n) {
      assert newest in q.hist && newest >= n + q.cap;
    }
    PassedFurther(q, c, Act(q, c));
  }

  lemma ActKeeps(q: Queue, c: Reader)
    requires RingOk(q) && AnnouncedOk(q) && ReaderOk(q, c) && Actable(q, c)
    ensures ReaderOk(q, Act(q, c))
  {
    match c.pc
    case Looking => LookingKeeps(q, c);
    case Taking(_) => TakingKeeps(q, c);
    case Behind(_) => BehindKeeps(q, c);
    case _ =>
  }

  lemma PushKeepsAnnounced(q: Queue, q': Queue, p: nat, step: PushStep)
    requires RingOk(q) && AnnouncedOk(q) && Pushes(q, q', p, step)
    ensures AnnouncedOk(q')
  {
    PushKeeps(q, q', p, step);
  }

  lemma PushKeepsReader(q: Queue, q': Queue, p: nat, step: PushStep, c: Reader)
    requires RingOk(q) && Pushes(q, q', p, step) && ReaderOk(q, c)
    ensures Shape(q') && ReaderOk(q', c)
  {
    PushKeeps(q, q', p, step);
    forall n: nat | Outrun(q, n) ensures Outrun(q', n) {
      var m :| m in q.hist && m >= n + q.cap;
      assert m in q'.hist;
    }
    if c.pc.Taking? { MpmcQueue.SlotUntouched(q, q', p, step, c.cursor); }
  }

  // ------------------------------------------------------------------ runs

  datatype System = System(queue: Queue, reader: Reader)

  ghost predicate Steps(s: System, s': System) {
    || (Actable(s.queue, s.reader) && s' == s.(reader := Act(s.queue, s.reader)))
    || (s'.reader == s.reader && exists p, step :: Pushes(s.queue, s'.queue, p, step))
  }

  ghost predicate StepAt(run: seq<System>, i: nat)
    requires 0 < i < |run|
  {
    Steps(run[i - 1], run[i])
  }

  /** A reader attaches at some position to a ring in any sound state and reads on. */
  ghost predicate Run(run: seq<System>) {
    && run != [] && RingOk(run[0].queue) && AnnouncedOk(run[0].queue) && WinnersKnown(run[0].queue)
    && run[0].reader.start >= 1 && run[0].reader == Reader(run[0].reader.start, run[0].reader.start, 0, [], Quiet)
    && forall i :: 0 < i < |run| ==> StepAt(run, i)
  }

  lemma StepKeeps(s: System, s': System)
    requires RingOk(s.queue) && AnnouncedOk(s.queue) && WinnersKnown(s.queue) && ReaderOk(s.queue, s.reader) && Steps(s, s')
    ensures RingOk(s'.queue) && AnnouncedOk(s'.queue) && WinnersKnown(s'.queue) && ReaderOk(s'.queue, s'.reader)
  {
    if s'.reader == s.reader && exists p, step :: Pushes(s.queue, s'.queue, p, step) {
      var p, step :| Pushes(s.queue, s'.queue, p, step);
      PushKeeps(s.queue, s'.queue, p, step);
      PushKeepsAnnounced(s.queue, s'.queue, p, step);
      PushKeepsWinners(s.queue, s'.queue, p, step);
      PushKeepsReader(s.queue, s'.queue, p, step, s.reader);
    } else {
      ActKeeps(s.queue, s.reader);
    }
  }

  lemma {:induction false} RunKeeps(run: seq<System>, i: nat)
    requires Run(run) && i < |run|
    ensures RingOk(run[i].queue) && AnnouncedOk(run[i].queue) && WinnersKnown(run[i].queue)
    ensures ReaderOk(run[i].queue, run[i].reader)
  {
    if i > 0 {
      RunKeeps(run, i - 1);
      assert StepAt(run, i);
      StepKeeps(run[i - 1], run[i]);
    }
  }

  /** Whatever order slots are published in, a reader returns only whole messages in increasing
      order, and deliveries plus the lapped count equal the cursor's advance. */
  lemma BroadcastsAreWholeAndCounted(run: seq<System>, i: nat)
    requires Run(run) && i < |run|
    ensures var (q, c) := (run[i].queue, run[i].reader);
            DeliveredTrue(q, c) && |c.delivered| + c.lapped == c.cursor - c.start
  {
    RunKeeps(run, i);
  }

  /** A message passed without being returned lies a full ring behind one that was published. */
  lemma OnlyOutrunMessagesAreSkipped(run: seq<System>, i: nat, n: nat)
    requires Run(run) && i < |run|
    requires run[i].reader.start <= n < run[i].reader.cursor && !Returned(run[i].reader, n)
    ensures Outrun(run[i].queue, n)
  {
    RunKeeps(run, i);
  }

  // ------------------------------------------------------------------ which skips lose a message

  /** Some producer has won a slot for ticket `t` and is writing it. */
  ghost predicate BeingWritten(q: Queue, t: nat) {
    exists p :: 0 <= p < |q.producers| && q.producers[p].Copying? && q.producers[p].seq_ == t
  }

  /** Ticket `t` has not won its slot: its producer is still waiting for it or has given up. */
  ghost predicate Unwon(q: Queue, t: nat) { t !in q.hist && !BeingWritten(q, t) }

  /** No ticket drawn after `n` for the same slot has won it. */
  ghost predicate AllLaterUnwon(q: Queue, n: nat)
    requires q.cap >= 1
  {
    forall t :: n < t < q.claimSeq && Ix(t, q.cap) == Ix(n, q.cap) ==> Unwon(q, t)
  }

  /** Whoever won a slot last is writing it or has published. */
  ghost predicate WinnerKnown(q: Queue, i: nat)
    requires i < |q.slots|
  {
    q.slots[i].word.Writing? ==> BeingWritten(q, q.slots[i].winner)
  }

  ghost predicate WinnersKnown(q: Queue) { forall i :: 0 <= i < |q.slots| ==> WinnerKnown(q, i) }

  lemma WriterStays(q: Queue, q': Queue, p: nat, step: PushStep, t: nat)
    requires RingOk(q) && Pushes(q, q', p, step) && BeingWritten(q, t)
    ensures BeingWritten(q', t) || (step.Finish? && q.producers[p].Copying? && q.producers[p].seq_ == t)
  {
    var x :| 0 <= x < |q.producers| && q.producers[x].Copying? && q.producers[x].seq_ == t;
    assert |q'.producers| == |q.producers| && q'.producers == q.producers[p := q'.producers[p]];
    if x != p || !step.Finish? { assert q'.producers[x].Copying? && q'.producers[x].seq_ == t; }
  }

  lemma PushKeepsWinner(q: Queue, q': Queue, p: nat, step: PushStep, i: nat)
    requires RingOk(q) && Pushes(q, q', p, step) && i < q.cap && WinnerKnown(q, i)
    ensures |q'.slots| == q.cap && WinnerKnown(q', i)
  {
    assert ProducerOk(q, q.producers[p]) && SlotOk(q, i);
    if q'.slots[i].word.Writing? {
      if step.Decide? && q'.producers[p].Copying? && Ix(q.producers[p].seq_, q.cap) == i {
        assert q'.producers[p].seq_ == q'.slots[i].winner;
      } else {
        WriterStays(q, q', p, step, q.slots[i].winner);
      }
    }
  }

  lemma PushKeepsWinners(q: Queue, q': Queue, p: nat, step: PushStep)
    requires RingOk(q) && Pushes(q, q', p, step) && WinnersKnown(q)
    ensures WinnersKnown(q')
  {
    forall i | 0 <= i < |q'.slots| ensures WinnerKnown(q', i) {
      assert WinnerKnown(q, i);
      PushKeepsWinner(q, q', p, step, i);
    }
  }

  lemma WriterHoldsSlot(q: Queue, t: nat)
    requires RingOk(q) && BeingWritten(q, t)
    ensures SlotOf(q, t).word == Writing && SlotOf(q, t).winner == t
  {
    var p :| 0 <= p < |q.producers| && q.producers[p].Copying? && q.producers[p].seq_ == t;
    assert ProducerOk(q, q.producers[p]);
  }

  /** A published message is still in its slot if and only if no later ticket of the slot has won it. */
  lemma PresentIffLaterUnwon(q: Queue, n: nat)
    requires RingOk(q) && WinnersKnown(q) && n in q.hist
    ensures SlotOf(q, n).word == Seq(n) <==> AllLaterUnwon(q, n)
  {
    var i := Ix(n, q.cap);
    assert SlotOk(q, i) && WinnerKnown(q, i);
    if SlotOf(q, n).word == Seq(n) {
      forall t | n < t < q.claimSeq && Ix(t, q.cap) == i ensures Unwon(q, t) {
        if BeingWritten(q, t) { WriterHoldsSlot(q, t); }
      }
    } else if SlotOf(q, n).winner > n {
      assert !Unwon(q, SlotOf(q, n).winner);
    }
  }

  /** Message `n` lies in the stretch a reader that is outrun is about to skip, and is still there. */
  predicate SkippedWhileThere(q: Queue, c: Reader, n: nat)
    requires Actable(q, c)
  {
    c.cursor <= n < Act(q, c).cursor && SlotOf(q, n).word == Seq(n)
  }

  lemma WordsArePublished(q: Queue, n: nat)
    requires RingOk(q) && n >= 1 && SlotOf(q, n).word == Seq(n)
    ensures n in q.hist
  {
    assert SlotOk(q, Ix(n, q.cap));
  }

  /** Exactly which readable messages a skip loses: those published ones in the stretch all of whose
      slot's later tickets are still waited for by their producers or were given up. */
  lemma SkipLosesIffLaterUnwon(run: seq<System>, i: nat, n: nat)
    requires Run(run) && i < |run| && run[i].reader.pc.Behind?
    ensures Actable(run[i].queue, run[i].reader)
    ensures var (q, c) := (run[i].queue, run[i].reader);
            SkippedWhileThere(q, c, n) <==> c.cursor <= n < Act(q, c).cursor && n in q.hist && AllLaterUnwon(q, n)
  {
    RunKeeps(run, i);
    var (q, c) := (run[i].queue, run[i].reader);
    if SkippedWhileThere(q, c, n) { WordsArePublished(q, n); }
    if n in q.hist { PresentIffLaterUnwon(q, n); }
  }

  lemma SkippedHasUnwonSuccessor(q: Queue, c: Reader, n: nat)
    requires RingOk(q) && AnnouncedOk(q) && WinnersKnown(q) && ReaderOk(q, c) && c.pc.Behind? && Actable(q, c)
    requires SkippedWhileThere(q, c, n)
    ensures c.cursor + q.cap <= n + q.cap <= Max(q.writeSeq, c.pc.seen) && Unwon(q, n + q.cap)
  {
    WordsArePublished(q, n);
    PresentIffLaterUnwon(q, n);
    assert Max(q.writeSeq, c.pc.seen) in q.hist;
    assert Ix(n + q.cap, q.cap) == Ix(n, q.cap);
  }

  /** Nothing readable is skipped when every ticket up to the newest sequence in view, from a ring
      ahead of the cursor on, has won its slot. */
  lemma SkipIsCleanWhenAllWon(run: seq<System>, i: nat, n: nat)
    requires Run(run) && i < |run| && run[i].reader.pc.Behind? && Actable(run[i].queue, run[i].reader)
    requires forall t :: run[i].reader.cursor + run[i].queue.cap <= t <= Max(run[i].queue.writeSeq, run[i].reader.pc.seen)
                         ==> !Unwon(run[i].queue, t)
    ensures !SkippedWhileThere(run[i].queue, run[i].reader, n)
  {
    RunKeeps(run, i);
    if SkippedWhileThere(run[i].queue, run[i].reader, n) {
      SkippedHasUnwonSuccessor(run[i].queue, run[i].reader, n);
    }
  }

  // ------------------------------------------------------------------ a message skipped while there

  /** A reader that attached to an empty ring and has not looked yet. */
  const FIRST := Reader(1, 1, 0, [], Quiet)

  ghost predicate Reaches(s: System) { exists run :: Run(run) && run[|run| - 1] == s }

  /** Some run leads to queue `q` with the reader still waiting for message 1. */
  ghost predicate Reachable(q: Queue) { Reaches(System(q, FIRST)) }

  lemma Longer(s: System, s': System)
    requires Reaches(s) && Steps(s, s')
    ensures Reaches(s')
  {
    var run :| Run(run) && run[|run| - 1] == s;
    var longer := run + [s'];
    forall i | 0 < i < |longer| ensures StepAt(longer, i) {
      if i < |run| { assert StepAt(run, i); }
    }
    assert Run(longer);
  }

  lemma Extend(q: Queue, q': Queue, p: nat, step: PushStep)
    requires Reachable(q) && Pushes(q, q', p, step)
    ensures Reachable(q')
  {
    assert System(q', FIRST).reader == System(q, FIRST).reader;
    Longer(System(q, FIRST), System(q', FIRST));
  }

  /** The reader's next load. */
  lemma Onward(q: Queue, c: Reader)
    requires Reaches(System(q, c)) && Actable(q, c)
    ensures Reaches(System(q, Act(q, c)))
  {
    Longer(System(q, c), System(q, c).(reader := Act(q, c)));
  }

  /** The queue after producer `p` has won its slot for an empty item, and after it has published it. */
  function Won(q: Queue, p: nat): Queue
    requires Shape(q) && p < |q.producers|
  {
    var n := q.claimSeq;
    Turned(WithSlot(q, n, SlotOf(q, n).(word := Writing, winner := n)), p, Copying(n, [], 0))
    .(claimSeq := n + 1, offered := q.offered[n := []])
  }

  function Finished(q: Queue, p: nat, n: nat): Queue
    requires Shape(q) && p < |q.producers|
  {
    Turned(WithSlot(q, n, SlotOf(q, n).(word := Seq(n))), p, Idle).(hist := q.hist[n := []], writeSeq := Max(q.writeSeq, n))
  }

  lemma Winning(q: Queue, p: nat)
    requires Reachable(q) && Shape(q) && q.width == 0 && p < |q.producers| && q.producers[p] == Idle
    requires SlotOf(q, q.claimSeq).word == Seq(PrevLap(q.claimSeq, q.cap))
    ensures Reachable(Won(q, p))
  {
    var n, cur := q.claimSeq, SlotOf(q, q.claimSeq).word;
    var q1 := Turned(q, p, Claimed(n, [], false)).(claimSeq := n + 1, offered := q.offered[n := []]);
    Extend(q, q1, p, PushStep.Claim([]));
    var q2 := Turned(q1, p, Loaded(n, [], false, cur));
    Extend(q1, q2, p, Load);
    assert Decided(q2, p, false) == Won(q, p);
    Extend(q2, Won(q, p), p, Decide(false));
  }

  lemma Finishing(q: Queue, p: nat, n: nat)
    requires Reachable(q) && Shape(q) && q.width == 0 && p < |q.producers| && q.producers[p] == Copying(n, [], 0)
    ensures Reachable(Finished(q, p, n))
  {
    var f := Turned(WithSlot(q, n, SlotOf(q, n).(word := Seq(n))), p, Publishing(n)).(hist := q.hist[n := []]);
    Extend(q, f, p, PushStep.Finish);
    assert Turned(f, p, Idle).(writeSeq := Max(f.writeSeq, n)) == Finished(q, p, n);
    Extend(f, Finished(q, p, n), p, PushStep.Publish);
  }

  /** A push by producer 0 that nobody holds up. */
  lemma FullPush(q: Queue) returns (r: Queue)
    requires Reachable(q) && Shape(q) && q.width == 0 && q.producers != [] && q.producers[0] == Idle
    requires SlotOf(q, q.claimSeq).word == Seq(PrevLap(q.claimSeq, q.cap))
    ensures r == Finished(Won(q, 0), 0, q.claimSeq) && Reachable(r)
    ensures Shape(r) && r.cap == q.cap && r.width == q.width && r.producers == q.producers && r.claimSeq == q.claimSeq + 1
    ensures r.writeSeq == Max(q.writeSeq, q.claimSeq)
    ensures forall i :: 0 <= i < q.cap ==>
              r.slots[i].word == if i == Ix(q.claimSeq, q.cap) then Seq(q.claimSeq) else q.slots[i].word
  {
    Winning(q, 0);
    Finishing(Won(q, 0), 0, q.claimSeq);
    r := Finished(Won(q, 0), 0, q.claimSeq);
  }

  lemma Places()
    ensures Ix(1, 2) == 1 && Ix(2, 2) == 0 && Ix(3, 2) == 1 && Ix(4, 2) == 0 && Ix(5, 2) == 1
  {
    assert Ix(3, 2) == Ix(1, 2);
    assert Ix(5, 2) == Ix(3, 2);
    assert Ix(2, 2) == Ix(0, 2);
    assert Ix(4, 2) == Ix(2, 2);
  }

  function Fresh(): Queue {
    Queue(2, 0, 1, 1, 0, seq(2, _ => Slot(Seq(0), seq(0, _ => 0), 0)), [Idle, Idle], [], map[], map[])
  }

  /** Message 1 pushed into the second of two slots. */
  lemma OnePushed() returns (q: Queue)
    ensures Reachable(q) && Shape(q) && q.cap == 2 && q.width == 0 && q.producers == [Idle, Idle]
    ensures q.claimSeq == 2 && q.writeSeq == 1 && q.slots[0].word == Seq(0) && q.slots[1].word == Seq(1)
  {
    Places();
    InitHolds(Fresh());
    assert Run([System(Fresh(), FIRST)]);
    q := FullPush(Fresh());
  }

  /** A run in which the reader is about to skip message `n`, which is still in its slot, with the
      producers in state `ps`. */
  ghost predicate Witnesses(run: seq<System>, n: nat, ps: seq<Producer>) {
    && Run(run)
    && var s := run[|run| - 1];
    && s.reader.pc.Behind? && Actable(s.queue, s.reader) && SkippedWhileThere(s.queue, s.reader, n)
    && s.queue.producers == ps
  }

  /** The reader looks for message 1, finds message 5 in its slot, and is about to skip to message 4. */
  lemma SkipsToFour(q: Queue) returns (run: seq<System>)
    requires Reachable(q) && Shape(q) && q.cap == 2 && q.width == 0 && q.writeSeq == 5
    requires q.slots[0].word == Seq(2) && q.slots[1].word == Seq(5)
    ensures Witnesses(run, 2, q.producers)
  {
    Places();
    Onward(q, FIRST);
    var looking := Act(q, FIRST);
    Onward(q, looking);
    var behind := Act(q, looking);
    run :| Run(run) && run[|run| - 1] == System(q, behind);
  }

  /** Messages 1 to 3 pushed, and ticket 4 drawn by a producer that goes no further. */
  lemma TicketHeld() returns (q: Queue)
    ensures Reachable(q) && Shape(q) && q.cap == 2 && q.width == 0 && q.producers == [Idle, Claimed(4, [], false)]
    ensures q.claimSeq == 5 && q.writeSeq == 3 && q.slots[0].word == Seq(2) && q.slots[1].word == Seq(3)
  {
    Places();
    var one := OnePushed();
    var two := FullPush(one);
    var three := FullPush(two);
    q := Turned(three, 1, Claimed(4, [], false)).(claimSeq := 5, offered := three.offered[4 := []]);
    Extend(three, q, 1, PushStep.Claim([]));
  }

  /** On a multi-producer ring a reader can skip a message that is still in its slot: here message 2,
      outrun by message 5 while the producer of message 4 has yet to win the slot. */
  lemma SkipsAMessageStillThere()
    ensures exists run :: Witnesses(run, 2, [Idle, Claimed(4, [], false)])
  {
    Places();
    var held := TicketHeld();
    var q := FullPush(held);
    var run := SkipsToFour(q);
    assert Witnesses(run, 2, [Idle, Claimed(4, [], false)]);
  }

  /** Message 3 pushed while the producer of message 2 is writing. */
  lemma StillWriting() returns (q: Queue)
    ensures Reachable(q) && Shape(q) && q.cap == 2 && q.width == 0 && q.producers == [Idle, Copying(2, [], 0)]
    ensures q.claimSeq == 4 && q.writeSeq == 3 && q.slots[0].word == Writing && q.slots[1].word == Seq(3)
  {
    Places();
    var one := OnePushed();
    Winning(one, 1);
    q := FullPush(Won(one, 1));
  }

  /** Ticket 4 drawn, and given up because its slot is still being written. */
  lemma TicketGivenUp() returns (q: Queue)
    ensures Reachable(q) && Shape(q) && q.cap == 2 && q.width == 0 && q.producers == [Idle, Copying(2, [], 0)]
    ensures q.claimSeq == 5 && q.writeSeq == 3 && q.slots[0].word == Writing && q.slots[1].word == Seq(3)
  {
    Places();
    var three := StillWriting();
    var claimed := Turned(three, 0, Claimed(4, [], false)).(claimSeq := 5, offered := three.offered[4 := []]);
    Extend(three, claimed, 0, PushStep.Claim([]));
    var loaded := Turned(claimed, 0, Loaded(4, [], false, Writing));
    Extend(claimed, loaded, 0, Load);
    q := Turned(loaded, 0, Idle);
    Extend(loaded, q, 0, Decide(true));
  }

  /** No producer need be held up for that: here the producer of message 4 gave up on the slot while
      message 2 was being written, and all producers are done when message 2 is skipped. */
  lemma SkipsWithNobodyHeldUp()
    ensures exists run :: Witnesses(run, 2, [Idle, Idle])
  {
    Places();
    var given := TicketGivenUp();
    var five := FullPush(given);
    Finishing(five, 1, 2);
    var q := Finished(five, 1, 2);
    assert q.producers == [Idle, Idle];
    var run := SkipsToFour(q);
    assert Witnesses(run, 2, [Idle, Idle]);
  }
}
