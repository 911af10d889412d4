/** A queue worker that looks at its ticket's slot too early and then finds the producers a ring ahead
    drops the ticket, although its message may have been published meanwhile and lie in its slot. */
module UnseenDrop {
  import opened Basics
  import opened Modular
  import opened Mpmc
  import opened MpmcQueue
  import opened QueueProgress
  import B = MpmcBroadcast

  // ------------------------------------------------------------------ exactly which drops lose a message

  lemma {:induction false} RunKeepsWinners(run: seq<Queue>, i: nat)
    requires Run(run) && i < |run|
    ensures B.WinnersKnown(run[i])
  {
    if i > 0 {
      RunKeepsWinners(run, i - 1);
      RunKeeps(run, i - 1);
      assert StepAt(run, i);
      var step :| NextStep(run[i - 1], run[i], step);
      StepKeepsWinners(run[i - 1], run[i], step);
    }
  }

  lemma StepKeepsWinners(q: Queue, q': Queue, step: Step)
    requires RingOk(q) && B.WinnersKnown(q) && NextStep(q, q', step)
    ensures B.WinnersKnown(q')
  {
    match step
    case Push(p, s) => B.PushKeepsWinners(q, q', p, s);
    case Recv(_) => WinnersStay(q, q');
  }

  lemma WinnersStay(q: Queue, q': Queue)
    requires B.WinnersKnown(q) && q'.slots == q.slots && q'.producers == q.producers
    ensures B.WinnersKnown(q')
  {
    forall i | 0 <= i < |q'.slots| ensures B.WinnerKnown(q', i) {
      assert B.WinnerKnown(q, i);
      if q'.slots[i].word.Writing? { StillWritten(q, q', q.slots[i].winner); }
    }
  }

  lemma StillWritten(q: Queue, q': Queue, t: nat)
    requires B.BeingWritten(q, t) && q'.producers == q.producers
    ensures B.BeingWritten(q', t)
  {
    var p :| 0 <= p < |q.producers| && q.producers[p].Copying? && q.producers[p].seq_ == t;
    assert q'.producers[p].Copying? && q'.producers[p].seq_ == t;
  }

  /** Such a drop counts as overwritten a message that is whole in its slot if and only if the message
      has been published and no later ticket of the slot has won it yet. */
  lemma UnseenDropLosesIffLaterUnwon(run: seq<Queue>, i: nat, w: nat)
    requires Run(run) && i < |run| && w < |run[i].workers| && Shape(run[i]) && DropsUnseen(run[i], run[i].workers[w])
    ensures Ready(run[i], run[i].workers[w])
    ensures var (q, me) := (run[i], run[i].workers[w]); var t := me.pending.value;
            && Moved(q, me).0 == Dropped(me, t)
            && (Present(q, t) <==> t in q.hist && B.AllLaterUnwon(q, t))
  {
    var (q, me) := (run[i], run[i].workers[w]);
    var t: nat := me.pending.value;
    WorkerSound(run, i, w);
    RunKeepsWinners(run, i);
    if Present(q, t) { PresentData(q, t); }
    if t in q.hist { B.PresentIffLaterUnwon(q, t); }
  }

  // ------------------------------------------------------------------ a run that loses one

  ghost predicate Reachable(q: Queue) { exists run: seq<Queue> :: Run(run) && run[|run| - 1] == q }

  lemma Extend(q: Queue, q': Queue, step: Step)
    requires Reachable(q) && NextStep(q, q', step)
    ensures Reachable(q')
  {
    var run :| Run(run) && run[|run| - 1] == q;
    var longer := run + [q'];
    forall i | 0 < i < |longer| ensures StepAt(longer, i) {
      if i < |run| { assert StepAt(run, i); } else { assert Steps(q, q'); }
    }
    assert Run(longer) && longer[|longer| - 1] == q';
  }

  /** One slot, two producers and a worker. */
  function Fresh(): Queue {
    Queue(1, 0, 1, 1, 0, seq(1, _ => Slot(Seq(0), seq(0, _ => 0), 0)), [Idle, Idle],
          [Worker(None, 0, [], {}, {}, Top)], map[], map[])
  }

  lemma OneSlot(n: nat)
    ensures Ix(n, 1) == 0
  {
  }

  /** Producer 0 draws ticket 1. */
  function First(): Queue {
    Fresh().(producers := [Claimed(1, [], false), Idle], claimSeq := 2, offered := map[1 := []])
  }

  lemma FirstReached()
    ensures Reachable(First())
  {
    assert Run([Fresh()]);
    assert Reachable(Fresh());
    assert First() == Turned(Fresh(), 0, Claimed(1, [], false)).(claimSeq := 2, offered := Fresh().offered[1 := []]);
    Extend(Fresh(), First(), Push(0, PushStep.Claim([])));
  }

  /** The worker draws ticket 1 as well and finds nothing in its slot. */
  function Looked1(): Queue {
    First().(workers := [Worker(Some(1), 0, [], {}, {}, Checking)], readSeq := 2)
  }

  function AtPc(pc: Pc): Queue { First().(workers := [Worker(None, 0, [], {}, {}, pc)]) }

  lemma ServesOne(q: Queue, q': Queue)
    requires Reachable(q) && |q.workers| == 1 && Ready(q, q.workers[0])
    requires q' == q.(workers := [Moved(q, q.workers[0]).0], readSeq := Moved(q, q.workers[0]).1)
    ensures Reachable(q')
  {
    assert q.workers[0 := q'.workers[0]] == q'.workers;
    Extend(q, q', Recv(0));
  }

  lemma SeenReached()
    ensures Reachable(AtPc(Seen(1)))
  {
    FirstReached();
    ServesOne(First(), AtPc(Drawing));
    ServesOne(AtPc(Drawing), AtPc(Seen(1)));
  }

  function Drawn(): Queue { Looked1().(workers := [Worker(Some(1), 0, [], {}, {}, Reading)]) }

  lemma DrawnReached()
    ensures Reachable(Drawn())
  {
    SeenReached();
    ServesOne(AtPc(Seen(1)), AtPc(Compared(1, 2)));
    ServesOne(AtPc(Compared(1, 2)), Drawn());
  }

  lemma LookedReached()
    ensures Reachable(Looked1())
  {
    OneSlot(1);
    DrawnReached();
    ServesOne(Drawn(), Looked1());
  }

  /** Producer 1 draws ticket 2 and goes no further. */
  function Second(): Queue {
    Looked1().(producers := [Claimed(1, [], false), Claimed(2, [], false)], claimSeq := 3, offered := map[1 := [], 2 := []])
  }

  /** Producer 0 publishes message 1. */
  function Filled1(): Queue {
    Second().(producers := [Publishing(1), Claimed(2, [], false)], slots := [Slot(Seq(1), [], 1)], hist := map[1 := []])
  }

  lemma SecondReached()
    ensures Reachable(Second())
  {
    LookedReached();
    assert Second() == Turned(Looked1(), 1, Claimed(2, [], false)).(claimSeq := 3, offered := Looked1().offered[2 := []]);
    Extend(Looked1(), Second(), Push(1, PushStep.Claim([])));
  }

  function Loaded1(): Queue { Second().(producers := [Loaded(1, [], false, Seq(0)), Claimed(2, [], false)]) }

  lemma LoadedReached()
    ensures Reachable(Loaded1())
  {
    OneSlot(1);
    SecondReached();
    assert Loaded1() == Turned(Second(), 0, Loaded(1, [], false, Seq(0)));
    Extend(Second(), Loaded1(), Push(0, Load));
  }

  lemma WonReached() returns (won: Queue)
    ensures Reachable(won)
    ensures won == Second().(producers := [Copying(1, [], 0), Claimed(2, [], false)], slots := [Slot(Writing, [], 1)])
  {
    OneSlot(1);
    LoadedReached();
    won := Decided(Loaded1(), 0, false);
    Extend(Loaded1(), won, Push(0, Decide(false)));
  }

  lemma FilledReached()
    ensures Reachable(Filled1())
  {
    OneSlot(1);
    var won := WonReached();
    var slot := SlotOf(won, 1).(word := Seq(1));
    assert slot.data == [];
    assert Filled1() == Turned(WithSlot(won, 1, slot), 0, Publishing(1)).(hist := won.hist[1 := []]);
    Extend(won, Filled1(), Push(0, PushStep.Finish));
  }

  /** Such a run exists: with one slot, the worker looked before message 1 was published, the ticket
      after it has been drawn but has not won the slot, and the worker drops message 1, published and
      in its slot, and counts it as overwritten. */
  lemma DropsAMessageStillThere()
    ensures exists run: seq<Queue> :: Run(run) && var q := run[|run| - 1];
              && q.workers != [] && Ready(q, q.workers[0]) && q.workers[0].pending == Some(1)
              && 1 in q.hist && Present(q, 1) && Moved(q, q.workers[0]).0 == Dropped(q.workers[0], 1)
  {
    FilledReached();
    OneSlot(1);
    var run :| Run(run) && run[|run| - 1] == Filled1();
    assert Moved(Filled1(), Filled1().workers[0]).0 == Dropped(Filled1().workers[0], 1);
  }
}
