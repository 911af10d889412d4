/** A producer of the multi-producer ring while everyone else stands still: it publishes its item,
    taking over from a stalled lap if it must, or gives up, and its push returns. */
module PushProgress {
  import opened Basics
  import opened Modular
  import opened Mpmc

  /** Steps of one producer, with the queue after each. */
  datatype Path = Here | Then(step: PushStep, queue: Queue, rest: Path)

  predicate Leads(q: Queue, p: nat, path: Path, q': Queue)
    decreases path
  {
    match path
    case Here => q == q'
    case Then(step, m, rest) => Pushes(q, m, p, step) && Leads(m, p, rest, q')
  }

  function Joined(a: Path, b: Path): Path {
    match a case Here => b case Then(step, m, rest) => Then(step, m, Joined(rest, b))
  }

  ghost predicate Reaches(q: Queue, q': Queue, p: nat) { exists path :: Leads(q, p, path, q') }

  lemma {:induction false} LeadsJoined(a: Queue, b: Queue, c: Queue, p: nat, first: Path, second: Path)
    requires Leads(a, p, first, b) && Leads(b, p, second, c)
    ensures Leads(a, p, Joined(first, second), c)
    decreases first
  {
    match first
    case Here =>
    case Then(_, m, rest) => LeadsJoined(m, b, c, p, rest, second);
  }

  lemma Joins(a: Queue, b: Queue, c: Queue, p: nat)
    requires Reaches(a, b, p) && Reaches(b, c, p)
    ensures Reaches(a, c, p)
  {
    var first :| Leads(a, p, first, b);
    var second :| Leads(b, p, second, c);
    LeadsJoined(a, b, c, p, first, second);
  }

  lemma Stays(q: Queue, p: nat)
    ensures Reaches(q, q, p)
  {
    assert Leads(q, p, Here, q);
  }

  lemma One(q: Queue, q': Queue, p: nat, step: PushStep)
    requires Pushes(q, q', p, step)
    ensures Reaches(q, q', p)
  {
    assert Leads(q', p, Here, q');
    assert Leads(q, p, Then(step, q', Here), q');
  }

  lemma Two(a: Queue, b: Queue, c: Queue, p: nat, first: PushStep, second: PushStep)
    requires Pushes(a, b, p, first) && Pushes(b, c, p, second)
    ensures Reaches(a, c, p)
  {
    One(a, b, p, first);
    One(b, c, p, second);
    Joins(a, b, c, p);
  }

  // ------------------------------------------------------------------ from the won slot on

  /** Producer `p` has won the slot of ticket `n` and copied `k` words of its item. */
  predicate Writes(q: Queue, p: nat, n: nat, item: seq<int>, k: nat) {
    && Shape(q) && p < |q.producers| && q.producers[p] == Copying(n, item, k) && |item| == q.width && k <= q.width
    && SlotOf(q, n).data[..k] == item[..k]
  }

  /** The ticket's item is published and announced, and nothing else has changed. */
  function Published(q: Queue, p: nat, n: nat, item: seq<int>): Queue
    requires Shape(q) && p < |q.producers|
  {
    Turned(WithSlot(q, n, Slot(Seq(n), item, SlotOf(q, n).winner)), p, Idle)
    .(hist := q.hist[n := item], writeSeq := Max(q.writeSeq, n))
  }

  function WordCopied(q: Queue, p: nat, n: nat, item: seq<int>, k: nat): Queue
    requires Writes(q, p, n, item, k) && k < q.width
  {
    Turned(WithSlot(q, n, SlotOf(q, n).(data := SlotOf(q, n).data[k := item[k]])), p, Copying(n, item, k + 1))
  }

  lemma CopiesWord(q: Queue, p: nat, n: nat, item: seq<int>, k: nat)
    requires Writes(q, p, n, item, k) && k < q.width
    ensures var d := WordCopied(q, p, n, item, k);
            && Writes(d, p, n, item, k + 1) && Pushes(q, d, p, CopyWord)
            && Published(d, p, n, item) == Published(q, p, n, item)
  {
    var d := WordCopied(q, p, n, item, k);
    var data := SlotOf(q, n).data;
    assert data[k := item[k]][..k + 1] == data[..k] + [item[k]];
    assert item[..k + 1] == item[..k] + [item[k]];
    assert Published(d, p, n, item).slots == Published(q, p, n, item).slots;
    assert Published(d, p, n, item).producers == Published(q, p, n, item).producers;
  }

  lemma Finishes(q: Queue, p: nat, n: nat, item: seq<int>)
    requires Writes(q, p, n, item, q.width)
    ensures Reaches(q, Published(q, p, n, item), p)
  {
    var data := SlotOf(q, n).data;
    assert data[..q.width] == data && item[..q.width] == item;
    var f := Turned(WithSlot(q, n, SlotOf(q, n).(word := Seq(n))), p, Publishing(n)).(hist := q.hist[n := item]);
    assert SlotOf(q, n).(word := Seq(n)) == Slot(Seq(n), item, SlotOf(q, n).winner);
    assert Published(q, p, n, item) == Turned(f, p, Idle).(writeSeq := Max(f.writeSeq, n));
    Two(q, f, Published(q, p, n, item), p, PushStep.Finish, PushStep.Publish);
  }

  lemma {:induction false} WritesOut(q: Queue, p: nat, n: nat, item: seq<int>, k: nat)
    requires Writes(q, p, n, item, k)
    ensures Reaches(q, Published(q, p, n, item), p)
    decreases q.width - k
  {
    if k == q.width {
      Finishes(q, p, n, item);
    } else {
      var d := WordCopied(q, p, n, item, k);
      CopiesWord(q, p, n, item, k);
      WritesOut(d, p, n, item, k + 1);
      One(q, d, p, CopyWord);
      Joins(q, d, Published(d, p, n, item), p);
    }
  }

  // ------------------------------------------------------------------ winning the slot

  /** Producer `p` holds ticket `n` and has not won its slot. */
  predicate Holds(q: Queue, p: nat, n: nat, item: seq<int>, stalled: bool) {
    Shape(q) && p < |q.producers| && q.producers[p] == Claimed(n, item, stalled) && |item| == q.width
  }

  function Won(q: Queue, p: nat, n: nat, item: seq<int>): Queue
    requires Shape(q) && p < |q.producers|
  {
    Turned(WithSlot(q, n, SlotOf(q, n).(word := Writing, winner := n)), p, Copying(n, item, 0))
  }

  lemma Loads(q: Queue, p: nat, n: nat, item: seq<int>, stalled: bool) returns (d: Queue)
    requires Holds(q, p, n, item, stalled)
    ensures d == Turned(q, p, Loaded(n, item, stalled, SlotOf(q, n).word)) && Pushes(q, d, p, Load)
  {
    d := Turned(q, p, Loaded(n, item, stalled, SlotOf(q, n).word));
  }

  /** A slot at the previous lap, or at any older one once the producer has stopped insisting, is won
      at the first try. */
  lemma Wins(q: Queue, p: nat, n: nat, item: seq<int>, stalled: bool)
    requires Holds(q, p, n, item, stalled) && SlotOf(q, n).word.Seq? && SlotOf(q, n).word.n < n
    requires stalled || SlotOf(q, n).word.n == PrevLap(n, q.cap)
    ensures Reaches(q, Won(q, p, n, item), p)
  {
    var d := Loads(q, p, n, item, stalled);
    assert Won(q, p, n, item) == Won(d, p, n, item);
    assert Decided(d, p, false) == Won(d, p, n, item);
    Two(q, d, Won(q, p, n, item), p, Load, Decide(false));
  }

  /** The deadline passes at a slot whose previous lap was never published. */
  lemma Stalls(q: Queue, p: nat, n: nat, item: seq<int>)
    requires Holds(q, p, n, item, false) && SlotOf(q, n).word.Seq? && SlotOf(q, n).word.n < n
    requires SlotOf(q, n).word.n != PrevLap(n, q.cap)
    ensures Reaches(q, Turned(q, p, Claimed(n, item, true)), p)
  {
    var d := Loads(q, p, n, item, false);
    assert Decided(d, p, true) == Turned(q, p, Claimed(n, item, true));
    Two(q, d, Turned(q, p, Claimed(n, item, true)), p, Load, Decide(true));
  }

  /** A push whose slot nobody is writing and no newer lap has taken goes through: the item is
      published whole under its ticket and announced, once the deadline has passed if the previous
      lap's producer never came. */
  lemma FreeSlotIsFilled(q: Queue, p: nat, n: nat, item: seq<int>, stalled: bool)
    requires Holds(q, p, n, item, stalled) && SlotOf(q, n).word.Seq? && SlotOf(q, n).word.n < n
    ensures var q' := Published(q, p, n, item).(slots := q.slots[Ix(n, q.cap) := Slot(Seq(n), item, n)]);
            Reaches(q, q', p)
  {
    var c := q;
    Stays(q, p);
    if !stalled && SlotOf(q, n).word.n != PrevLap(n, q.cap) {
      c := Turned(q, p, Claimed(n, item, true));
      Stalls(q, p, n, item);
    }
    Wins(c, p, n, item, c.producers[p].stalled);
    var w := Won(c, p, n, item);
    Joins(q, c, w, p);
    WritesOut(w, p, n, item, 0);
    Joins(q, w, Published(w, p, n, item), p);
    assert Published(w, p, n, item).slots == q.slots[Ix(n, q.cap) := Slot(Seq(n), item, n)];
    assert Published(w, p, n, item).producers == q.producers[p := Idle];
  }

  /** A push whose slot has gone to a newer lap, or is still being written when the deadline passes,
      gives up and leaves the ring as it was. */
  lemma TakenSlotIsGivenUp(q: Queue, p: nat, n: nat, item: seq<int>, stalled: bool)
    requires Holds(q, p, n, item, stalled) && (SlotOf(q, n).word.Seq? ==> SlotOf(q, n).word.n > n)
    ensures Reaches(q, Turned(q, p, Idle), p)
  {
    var d := Loads(q, p, n, item, stalled);
    assert Decided(d, p, true) == Turned(q, p, Idle);
    Two(q, d, Turned(q, p, Idle), p, Load, Decide(true));
  }

  /** Until then it goes on trying. */
  lemma WriterIsWaitedFor(q: Queue, p: nat)
    requires Shape(q) && p < |q.producers| && q.producers[p].Loaded? && q.producers[p].cur.Writing?
    ensures var me := q.producers[p]; Decided(q, p, false) == Turned(q, p, Claimed(me.seq_, me.item, me.stalled))
  {
  }

  // ------------------------------------------------------------------ every push returns

  lemma ClaimedReturns(q: Queue, p: nat) returns (q': Queue)
    requires RingOk(q) && p < |q.producers| && q.producers[p].Claimed?
    ensures Reaches(q, q', p) && |q'.producers| == |q.producers| && q'.producers[p] == Idle
  {
    var Claimed(n, item, stalled) := q.producers[p];
    assert ProducerOk(q, q.producers[p]);
    assert SlotOk(q, Ix(n, q.cap));
    if SlotOf(q, n).word.Seq? && SlotOf(q, n).word.n < n {
      FreeSlotIsFilled(q, p, n, item, stalled);
      q' := Published(q, p, n, item).(slots := q.slots[Ix(n, q.cap) := Slot(Seq(n), item, n)]);
    } else {
      TakenSlotIsGivenUp(q, p, n, item, stalled);
      q' := Turned(q, p, Idle);
    }
  }

  lemma CopyingReturns(q: Queue, p: nat) returns (q': Queue)
    requires RingOk(q) && p < |q.producers| && q.producers[p].Copying?
    ensures Reaches(q, q', p) && |q'.producers| == |q.producers| && q'.producers[p] == Idle
  {
    var Copying(n, item, k) := q.producers[p];
    assert ProducerOk(q, q.producers[p]);
    WritesOut(q, p, n, item, k);
    q' := Published(q, p, n, item);
  }

  /** Wherever a producer stands in its push, by finitely many steps of its own, the deadline passing
      among them, the push comes to its end. */
  lemma PushesReturn(q: Queue, p: nat) returns (q': Queue)
    requires RingOk(q) && p < |q.producers|
    ensures Reaches(q, q', p) && |q'.producers| == |q.producers| && q'.producers[p] == Idle
  {
    q' := q;
    Stays(q, p);
    match q.producers[p]
    case Idle =>
    case Claimed(_, _, _) => q' := ClaimedReturns(q, p);
    case Copying(_, _, _) => q' := CopyingReturns(q, p);
    case Publishing(n) =>
      q' := Turned(q, p, Idle).(writeSeq := Max(q.writeSeq, n));
      One(q, q', p, PushStep.Publish);
    case Loaded(_, _, _, _) =>
      var d := Decided(q, p, true);
      One(q, d, p, Decide(true));
      DecideKeeps(q, d, p, true);
      q' := d;
      Stays(d, p);
      if d.producers[p].Claimed? { q' := ClaimedReturns(d, p); }
      else if d.producers[p].Copying? { q' := CopyingReturns(d, p); }
      Joins(q, d, q', p);
  }
}
