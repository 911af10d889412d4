/** The multi-producer work queue, one step per atomic operation or copied word: producers draw
    tickets and win slots by compare-and-swap, taking over from stalled ones; consumers draw tickets
    and deliver or drop them. Producers and consumers may stop at any step for good. */
module Mpmc {
  import opened Modular
  import opened Basics

  datatype Word = Writing | Seq(n: nat)

  /** `winner` is the ticket of the last producer that won the slot. */
  datatype Slot = Slot(word: Word, data: seq<int>, winner: nat)

  datatype Producer =
    | Idle
    | Claimed(seq_: nat, item: seq<int>, stalled: bool)
    | Loaded(seq_: nat, item: seq<int>, stalled: bool, cur: Word)
    | Copying(seq_: nat, item: seq<int>, k: nat)
    | Publishing(seq_: nat)

  datatype Message = Message(ticket: nat, data: seq<int>)

  /** Between calls, in the loads of `read_ticket`, or in those of drawing a ticket. */
  datatype Pc =
    | Top
    | Reading
    | Copied(buf: seq<int>)
    | Checking
    | Drawing
    | Seen(readSeq: nat)
    | Compared(readSeq: nat, claimSeq: nat)

  /** `got` and `lost` record which tickets were delivered and which make up the `dropped` count. */
  datatype Worker = Worker(pending: Option<nat>, dropped: nat, delivered: seq<Message>, got: set<nat>,
                           lost: set<nat>, pc: Pc)

  /** `offered` maps each ticket drawn by a producer to its item, `hist` each published one. */
  datatype Queue = Queue(cap: nat, width: nat, claimSeq: nat, readSeq: nat, writeSeq: nat, slots: seq<Slot>,
                         producers: seq<Producer>, workers: seq<Worker>,
                         offered: map<nat, seq<int>>, hist: map<nat, seq<int>>)

  predicate Shape(q: Queue) {
    && q.cap >= 1 && |q.slots| == q.cap
    && forall i :: 0 <= i < q.cap ==> |q.slots[i].data| == q.width
  }

  function SlotOf(q: Queue, n: nat): Slot
    requires Shape(q)
  {
    q.slots[Ix(n, q.cap)]
  }

  function WithSlot(q: Queue, n: nat, slot: Slot): Queue
    requires Shape(q)
  {
    q.(slots := q.slots[Ix(n, q.cap) := slot])
  }

  // ------------------------------------------------------------------ producers

  datatype PushStep = Claim(item: seq<int>) | Load | Decide(expired: bool) | CopyWord | Finish | Publish

  function Turned(q: Queue, p: nat, to: Producer): Queue
    requires p < |q.producers|
  {
    q.(producers := q.producers[p := to])
  }

  /** The previous lap's sequence, which the slot should hold; the subtraction saturates. */
  function PrevLap(seq_: nat, cap: nat): nat { if seq_ < cap then 0 else seq_ - cap }

  /** What a producer does with the slot word it loaded: give up on a newer lap, try to win the
      slot, or spin; past the deadline it gives up on a slot being written and stops insisting on
      the previous lap otherwise. */
  function Decided(q: Queue, p: nat, expired: bool): Queue
    requires Shape(q) && p < |q.producers| && q.producers[p].Loaded?
  {
    var Loaded(seq_, item, stalled, cur) := q.producers[p];
    var slot := SlotOf(q, seq_);
    if cur.Seq? && cur.n > seq_ then Turned(q, p, Idle)
    else if (cur == Seq(PrevLap(seq_, q.cap)) || (stalled && cur.Seq?)) && slot.word == cur then
      Turned(WithSlot(q, seq_, slot.(word := Writing, winner := seq_)), p, Copying(seq_, item, 0))
    else if expired && cur.Writing? then Turned(q, p, Idle)
    else Turned(q, p, Claimed(seq_, item, stalled || expired))
  }

  predicate Pushes(q: Queue, q': Queue, p: nat, step: PushStep) {
    && Shape(q) && p < |q.producers|
    && var me := q.producers[p];
    match step
    case Claim(item) =>
      && me.Idle? && |item| == q.width
      && q' == Turned(q, p, Claimed(q.claimSeq, item, false)).(claimSeq := q.claimSeq + 1,
                                                                offered := q.offered[q.claimSeq := item])
    case Load => me.Claimed? && q' == Turned(q, p, Loaded(me.seq_, me.item, me.stalled, SlotOf(q, me.seq_).word))
    case Decide(expired) => me.Loaded? && q' == Decided(q, p, expired)
    case CopyWord =>
      && me.Copying? && me.k < q.width && |me.item| == q.width
      && var slot := SlotOf(q, me.seq_);
      && q' == Turned(WithSlot(q, me.seq_, slot.(data := slot.data[me.k := me.item[me.k]])), p, me.(k := me.k + 1))
    case Finish =>
      && me.Copying? && me.k == q.width
      && q' == Turned(WithSlot(q, me.seq_, SlotOf(q, me.seq_).(word := Seq(me.seq_))), p, Publishing(me.seq_))
               .(hist := q.hist[me.seq_ := me.item])
    case Publish => me.Publishing? && q' == Turned(q, p, Idle).(writeSeq := Max(q.writeSeq, me.seq_))
  }

  // ------------------------------------------------------------------ workers

  function Dropped(me: Worker, ticket: nat): Worker {
    me.(pending := None, dropped := me.dropped + 1, lost := me.lost + {ticket}, pc := Drawing)
  }

  predicate Ready(q: Queue, me: Worker) {
    && Shape(q)
    && (me.pc.Reading? || me.pc.Copied? || me.pc.Checking? ==> me.pending.Some?)
    && (me.pc.Copied? ==> |me.pc.buf| <= q.width)
  }

  /** A worker's next load or compare-and-swap in `try_recv`, and the shared ticket counter after it. */
  function Moved(q: Queue, me: Worker): (Worker, nat)
    requires Ready(q, me)
  {
    match me.pc
    case Top => (me.(pc := if me.pending.Some? then Reading else Drawing), q.readSeq)
    case Reading => (Looked(me, SlotOf(q, me.pending.value).word), q.readSeq)
    case Copied(buf) => (CopiedOn(q, me, SlotOf(q, me.pending.value)), q.readSeq)
    case Checking =>
      (if q.claimSeq > me.pending.value + q.cap then Dropped(me, me.pending.value) else me.(pc := Top), q.readSeq)
    case Drawing => (me.(pc := Seen(q.readSeq)), q.readSeq)
    case Seen(readSeq) => (me.(pc := Compared(readSeq, q.claimSeq)), q.readSeq)
    case Compared(readSeq, claimSeq) =>
      var floor := PrevLap(claimSeq, q.cap);
      if readSeq >= claimSeq then (me.(pc := Top), q.readSeq)
      else if q.readSeq != readSeq then (me.(pc := Drawing), q.readSeq)
      else if readSeq < floor then (Skipped(me, readSeq, floor), floor)
      else (me.(pending := Some(readSeq), pc := Reading), readSeq + 1)
  }

  /** After the first look at the pending ticket's slot. */
  function Looked(me: Worker, word: Word): Worker
    requires me.pending.Some?
  {
    if word == Seq(me.pending.value) then me.(pc := Copied([]))
    else if word.Seq? && word.n > me.pending.value then Dropped(me, me.pending.value)
    else me.(pc := Checking)
  }

  function Delivered(me: Worker, data: seq<int>): Worker
    requires me.pending.Some?
  {
    me.(pending := None, delivered := me.delivered + [Message(me.pending.value, data)],
        got := me.got + {me.pending.value}, pc := Top)
  }

  /** One more word of the copy, or the second look once it is complete. */
  function CopiedOn(q: Queue, me: Worker, slot: Slot): Worker
    requires me.pending.Some? && me.pc.Copied? && |me.pc.buf| <= q.width == |slot.data|
  {
    if |me.pc.buf| < q.width then me.(pc := Copied(me.pc.buf + [slot.data[|me.pc.buf|]]))
    else if slot.word == Seq(me.pending.value) then
      Delivered(me, me.pc.buf)
    else Dropped(me, me.pending.value)
  }

  function Skipped(me: Worker, a: nat, b: nat): Worker
    requires a <= b
  {
    me.(dropped := me.dropped + (b - a), lost := me.lost + Range(a, b), pc := Drawing)
  }

  function Acted(q: Queue, w: nat): Queue
    requires w < |q.workers| && Ready(q, q.workers[w])
  {
    var (me, readSeq) := Moved(q, q.workers[w]);
    q.(workers := q.workers[w := me], readSeq := readSeq)
  }

  datatype Step = Push(p: nat, s: PushStep) | Recv(w: nat)

  predicate NextStep(q: Queue, q': Queue, step: Step) {
    match step
    case Push(p, s) => Pushes(q, q', p, s)
    case Recv(w) => w < |q.workers| && Ready(q, q.workers[w]) && q' == Acted(q, w)
  }

  predicate Init(q: Queue) {
    && q.cap >= 1 && q.claimSeq == 1 && q.readSeq == 1 && q.writeSeq == 0
    && q.slots == seq(q.cap, _ => Slot(Seq(0), seq(q.width, _ => 0), 0))
    && (forall p :: 0 <= p < |q.producers| ==> q.producers[p] == Idle)
    && (forall w :: 0 <= w < |q.workers| ==> q.workers[w] == Worker(None, 0, [], {}, {}, Top))
    && q.offered == map[] && q.hist == map[]
  }

  // ------------------------------------------------------------------ slots

  /** A slot holds the newest message published in it whole, or is being written by the ticket that
      won it last, which is newer than anything published there. */
  predicate SlotOk(q: Queue, i: nat)
    requires Shape(q) && i < q.cap
  {
    var slot := q.slots[i];
    && (slot.winner != 0 ==> Ix(slot.winner, q.cap) == i && slot.winner < q.claimSeq)
    && (forall m :: m in q.hist && Ix(m, q.cap) == i ==> m <= slot.winner)
    && (match slot.word
        case Writing => slot.winner != 0 && slot.winner !in q.hist
        case Seq(n) => n == slot.winner && (n != 0 ==> n in q.hist && slot.data == q.hist[n]))
  }

  predicate InFlight(p: Producer) { p.Claimed? || p.Loaded? || p.Copying? }

  predicate ProducerOk(q: Queue, p: Producer)
    requires Shape(q)
  {
    && (InFlight(p) ==>
          && 1 <= p.seq_ < q.claimSeq && p.seq_ !in q.hist && |p.item| == q.width
          && p.seq_ in q.offered && q.offered[p.seq_] == p.item)
    && (p.Copying? ==>
          && SlotOf(q, p.seq_).word == Writing && SlotOf(q, p.seq_).winner == p.seq_
          && p.k <= q.width && forall j :: 0 <= j < p.k ==> SlotOf(q, p.seq_).data[j] == p.item[j])
  }

  /** Two producers never hold the same ticket. */
  predicate Distinct(q: Queue, a: nat, b: nat)
    requires a < |q.producers| && b < |q.producers|
  {
    a != b && InFlight(q.producers[a]) && InFlight(q.producers[b]) ==> q.producers[a].seq_ != q.producers[b].seq_
  }

  predicate RingOk(q: Queue) {
    && Shape(q) && q.claimSeq >= 1
    && (forall n :: n in q.hist ==> n in q.offered && q.hist[n] == q.offered[n] && |q.hist[n]| == q.width)
    && (forall n :: n in q.offered ==> 1 <= n < q.claimSeq)
    && (forall i :: 0 <= i < q.cap ==> SlotOk(q, i))
    && (forall p :: 0 <= p < |q.producers| ==> ProducerOk(q, q.producers[p]))
    && (forall a, b :: 0 <= a < |q.producers| && 0 <= b < |q.producers| ==> Distinct(q, a, b))
  }

  predicate Evolves(q: Queue, q': Queue) {
    && q.cap == q'.cap && q.width == q'.width && q.claimSeq <= q'.claimSeq
    && (forall n :: n in q.hist ==> n in q'.hist && q'.hist[n] == q.hist[n])
    && (forall n :: n in q.offered ==> n in q'.offered && q'.offered[n] == q.offered[n])
  }

  lemma InitHolds(q: Queue)
    requires Init(q)
    ensures RingOk(q)
  {
  }

  // ------------------------------------------------------------------ producers keep the ring

  lemma ClaimKeeps(q: Queue, q': Queue, p: nat, item: seq<int>)
    requires RingOk(q) && Pushes(q, q', p, Claim(item))
    ensures RingOk(q')
  {
    forall i | 0 <= i < q.cap ensures SlotOk(q', i) { assert SlotOk(q, i); }
    forall x | 0 <= x < |q'.producers| ensures ProducerOk(q', q'.producers[x]) {
      assert ProducerOk(q, q.producers[x]);
    }
    forall a, b | 0 <= a < |q'.producers| && 0 <= b < |q'.producers| ensures Distinct(q', a, b) {
      assert Distinct(q, a, b) && ProducerOk(q, q.producers[a]) && ProducerOk(q, q.producers[b]);
    }
  }

  /** Steps that only change what one producer knows. */
  lemma TurnKeeps(q: Queue, q': Queue, p: nat, to: Producer)
    requires RingOk(q) && p < |q.producers| && q' == Turned(q, p, to)
    requires ProducerOk(q, to) && (InFlight(to) ==> InFlight(q.producers[p]) && to.seq_ == q.producers[p].seq_)
    ensures RingOk(q')
  {
    forall i | 0 <= i < q.cap ensures SlotOk(q', i) { assert SlotOk(q, i); }
    forall x | 0 <= x < |q'.producers| ensures ProducerOk(q', q'.producers[x]) {
      assert ProducerOk(q, q.producers[x]);
    }
    forall a, b | 0 <= a < |q'.producers| && 0 <= b < |q'.producers| ensures Distinct(q', a, b) {
      assert Distinct(q, a, b);
    }
  }

  /** A producer wins a slot that nobody is writing, and only from an older message. */
  lemma WinnerIsNewer(q: Queue, p: nat, expired: bool)
    requires RingOk(q) && p < |q.producers| && q.producers[p].Loaded? && Decided(q, p, expired).producers[p].Copying?
    ensures var slot := SlotOf(q, q.producers[p].seq_);
            slot.word.Seq? && slot.word.n == slot.winner < q.producers[p].seq_
  {
    assert SlotOk(q, Ix(q.producers[p].seq_, q.cap)) && ProducerOk(q, q.producers[p]);
  }

  lemma WinKeepsProducers(q: Queue, q': Queue, p: nat, expired: bool, x: nat)
    requires RingOk(q) && p < |q.producers| && q.producers[p].Loaded? && q' == Decided(q, p, expired)
    requires q'.producers[p].Copying? && x < |q.producers|
    ensures ProducerOk(q', q'.producers[x])
  {
    WinnerIsNewer(q, p, expired);
    assert ProducerOk(q, q.producers[x]);
  }

  lemma DecideKeeps(q: Queue, q': Queue, p: nat, expired: bool)
    requires RingOk(q) && Pushes(q, q', p, Decide(expired))
    ensures RingOk(q')
  {
    assert ProducerOk(q, q.producers[p]);
    if q'.producers[p].Copying? {
      WinnerIsNewer(q, p, expired);
      forall i | 0 <= i < q.cap ensures SlotOk(q', i) { assert SlotOk(q, i); }
      forall x | 0 <= x < |q'.producers| ensures ProducerOk(q', q'.producers[x]) {
        WinKeepsProducers(q, q', p, expired, x);
      }
      forall a, b | 0 <= a < |q'.producers| && 0 <= b < |q'.producers| ensures Distinct(q', a, b) {
        assert Distinct(q, a, b);
      }
    } else {
      TurnKeeps(q, q', p, q'.producers[p]);
    }
  }

  /** Another producer's slot is not the one being written. */
  lemma WritersApart(q: Queue, a: nat, b: nat)
    requires RingOk(q) && a < |q.producers| && b < |q.producers| && a != b
    requires q.producers[a].Copying? && q.producers[b].Copying?
    ensures Ix(q.producers[a].seq_, q.cap) != Ix(q.producers[b].seq_, q.cap)
  {
    assert Distinct(q, a, b) && ProducerOk(q, q.producers[a]) && ProducerOk(q, q.producers[b]);
  }

  lemma CopyKeepsProducer(q: Queue, q': Queue, p: nat, x: nat)
    requires RingOk(q) && Pushes(q, q', p, CopyWord) && x < |q.producers|
    ensures ProducerOk(q', q'.producers[x])
  {
    assert ProducerOk(q, q.producers[x]) && ProducerOk(q, q.producers[p]);
    if x != p && q.producers[x].Copying? { WritersApart(q, x, p); }
  }

  lemma CopyKeeps(q: Queue, q': Queue, p: nat)
    requires RingOk(q) && Pushes(q, q', p, CopyWord)
    ensures RingOk(q')
  {
    assert ProducerOk(q, q.producers[p]);
    forall i | 0 <= i < q.cap ensures SlotOk(q', i) { assert SlotOk(q, i); }
    forall x | 0 <= x < |q'.producers| ensures ProducerOk(q', q'.producers[x]) { CopyKeepsProducer(q, q', p, x); }
    forall a, b | 0 <= a < |q'.producers| && 0 <= b < |q'.producers| ensures Distinct(q', a, b) {
      assert Distinct(q, a, b);
    }
  }

  lemma FinishKeepsProducer(q: Queue, q': Queue, p: nat, x: nat)
    requires RingOk(q) && Pushes(q, q', p, Finish) && x < |q.producers|
    ensures ProducerOk(q', q'.producers[x])
  {
    assert ProducerOk(q, q.producers[x]) && ProducerOk(q, q.producers[p]) && Distinct(q, x, p);
    if x != p && q.producers[x].Copying? { WritersApart(q, x, p); }
  }

  lemma FinishKeepsSlot(q: Queue, q': Queue, p: nat, i: nat)
    requires RingOk(q) && Pushes(q, q', p, Finish) && i < q.cap
    ensures SlotOk(q', i)
  {
    assert SlotOk(q, i) && ProducerOk(q, q.producers[p]);
    if i == Ix(q.producers[p].seq_, q.cap) { assert q.slots[i].data == q.producers[p].item; }
  }

  lemma FinishKeeps(q: Queue, q': Queue, p: nat)
    requires RingOk(q) && Pushes(q, q', p, Finish)
    ensures RingOk(q')
  {
    assert ProducerOk(q, q.producers[p]);
    forall i | 0 <= i < q.cap ensures SlotOk(q', i) { FinishKeepsSlot(q, q', p, i); }
    forall x | 0 <= x < |q'.producers| ensures ProducerOk(q', q'.producers[x]) { FinishKeepsProducer(q, q', p, x); }
    forall a, b | 0 <= a < |q'.producers| && 0 <= b < |q'.producers| ensures Distinct(q', a, b) {
      assert Distinct(q, a, b);
    }
  }

  lemma PublishKeeps(q: Queue, q': Queue, p: nat)
    requires RingOk(q) && Pushes(q, q', p, Publish)
    ensures RingOk(q')
  {
    TurnKeeps(q, Turned(q, p, Idle), p, Idle);
    var t := Turned(q, p, Idle);
    forall i | 0 <= i < q.cap ensures SlotOk(q', i) { assert SlotOk(t, i); }
    forall x | 0 <= x < |q'.producers| ensures ProducerOk(q', q'.producers[x]) { assert ProducerOk(t, t.producers[x]); }
    forall a, b | 0 <= a < |q'.producers| && 0 <= b < |q'.producers| ensures Distinct(q', a, b) { assert Distinct(t, a, b); }
  }

  lemma PushKeeps(q: Queue, q': Queue, p: nat, step: PushStep)
    requires RingOk(q) && Pushes(q, q', p, step)
    ensures RingOk(q') && Evolves(q, q') && q'.workers == q.workers && q'.readSeq == q.readSeq
  {
    assert ProducerOk(q, q.producers[p]);
    match step
    case Claim(item) => ClaimKeeps(q, q', p, item);
    case Load => TurnKeeps(q, q', p, q'.producers[p]);
    case Decide(expired) => DecideKeeps(q, q', p, expired);
    case CopyWord => CopyKeeps(q, q', p);
    case Finish => FinishKeeps(q, q', p);
    case Publish => PublishKeeps(q, q', p);
  }
}
