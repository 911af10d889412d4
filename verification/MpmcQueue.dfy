/** The worker side of the multi-producer queue: where every ticket ends up. */
module MpmcQueue {
  import opened Modular
  import opened Basics
  import opened Mpmc

  // ------------------------------------------------------------------ one worker

  function PendingSet(p: Option<nat>): set<nat> { if p.Some? then {p.value} else {} }

  /** The tickets a worker holds or has dealt with. */
  function Fates(me: Worker): set<nat> { me.got + me.lost + PendingSet(me.pending) }

  function Count(me: Worker): nat { |me.delivered| + me.dropped + (if me.pending.Some? then 1 else 0) }

  /** Each ticket has one fate, and the counters count them. */
  predicate BooksOk(me: Worker) {
    && me.lost !! me.got && me.dropped == |me.lost| && |me.delivered| == |me.got|
    && (me.pending.Some? ==> me.pending.value !in me.lost && me.pending.value !in me.got)
  }

  predicate Below(ts: set<nat>, n: nat) { forall t :: t in ts ==> 1 <= t < n }

  /** Deliveries come in ticket order and were published whole. */
  predicate DeliveriesOk(q: Queue, me: Worker) {
    && (forall i :: 0 <= i < |me.delivered| ==>
          && me.delivered[i].ticket in me.got && me.delivered[i].ticket in q.hist
          && me.delivered[i].data == q.hist[me.delivered[i].ticket])
    && (forall i, j :: 0 <= i < j < |me.delivered| ==> me.delivered[i].ticket < me.delivered[j].ticket)
    && (me.pending.Some? ==> forall i :: 0 <= i < |me.delivered| ==> me.delivered[i].ticket < me.pending.value)
  }

  /** What is lost had a full ring of newer tickets drawn. */
  predicate LossesOk(q: Queue, me: Worker) { forall t :: t in me.lost ==> q.claimSeq > t + q.cap }

  predicate FatesOk(q: Queue, me: Worker) {
    && Below(me.got, q.readSeq) && Below(me.lost, q.readSeq)
    && (me.pending.Some? ==> 1 <= me.pending.value < q.readSeq)
    && DeliveriesOk(q, me) && LossesOk(q, me)
  }

  predicate PcOk(q: Queue, me: Worker)
    requires Shape(q)
  {
    match me.pc
    case Top => true
    case Reading => me.pending.Some?
    case Copied(buf) =>
      && me.pending.Some? && me.pending.value in q.hist && |buf| <= q.width == |q.hist[me.pending.value]|
      && (SlotOf(q, me.pending.value).word == Seq(me.pending.value) ==> buf == q.hist[me.pending.value][..|buf|])
    case Checking => me.pending.Some?
    case Drawing => me.pending.None?
    case Seen(r) => me.pending.None? && 1 <= r <= q.readSeq
    case Compared(r, c) => me.pending.None? && 1 <= r <= q.readSeq && c <= q.claimSeq
  }

  predicate WorkerOk(q: Queue, me: Worker)
    requires Shape(q)
  {
    BooksOk(me) && FatesOk(q, me) && PcOk(q, me)
  }

  // ------------------------------------------------------------------ the ring moves under a worker

  /** Once a published message has left its slot it never comes back. */
  lemma SlotLeft(q: Queue, q': Queue, p: nat, step: PushStep, t: nat)
    requires Mpmc.RingOk(q) && Pushes(q, q', p, step) && t in q.hist && SlotOf(q, t).word != Seq(t)
    ensures Shape(q') && SlotOf(q', t).word != Seq(t)
  {
    assert ProducerOk(q, q.producers[p]);
  }

  lemma SlotUntouched(q: Queue, q': Queue, p: nat, step: PushStep, t: nat)
    requires Mpmc.RingOk(q) && Pushes(q, q', p, step) && t in q.hist
    ensures Shape(q') && (SlotOf(q', t).word == Seq(t) ==> SlotOf(q, t).word == Seq(t))
  {
    if SlotOf(q, t).word != Seq(t) { SlotLeft(q, q', p, step, t); }
  }

  lemma PushKeepsWorker(q: Queue, q': Queue, p: nat, step: PushStep, me: Worker)
    requires Mpmc.RingOk(q) && Pushes(q, q', p, step) && WorkerOk(q, me)
    ensures Shape(q') && WorkerOk(q', me)
  {
    PushKeeps(q, q', p, step);
    if me.pc.Copied? { SlotUntouched(q, q', p, step, me.pending.value); }
  }

  // ------------------------------------------------------------------ a worker acts

  /** A slot seen past ticket `t` means that a ticket a full ring later was drawn. */
  lemma PassedMeansLapped(q: Queue, t: nat)
    requires Mpmc.RingOk(q) && t >= 1
    requires var slot := SlotOf(q, t); (slot.word.Seq? && slot.word.n > t) || (t in q.hist && slot.word != Seq(t))
    ensures q.claimSeq > t + q.cap
  {
    assert SlotOk(q, Ix(t, q.cap));
    SameRemainder(SlotOf(q, t).winner, t, q.cap);
  }

  lemma DropBooks(me: Worker)
    requires BooksOk(me) && me.pending.Some?
    ensures var me' := Dropped(me, me.pending.value); BooksOk(me') && SameFates(me, me')
  {
  }

  lemma DropFates(q: Queue, me: Worker)
    requires FatesOk(q, me) && me.pending.Some? && q.claimSeq > me.pending.value + q.cap
    ensures FatesOk(q, Dropped(me, me.pending.value))
  {
  }

  lemma DeliverBooks(me: Worker, data: seq<int>)
    requires BooksOk(me) && me.pending.Some?
    ensures var me' := Delivered(me, data); BooksOk(me') && SameFates(me, me')
  {
  }

  lemma DeliverFates(q: Queue, me: Worker)
    requires FatesOk(q, me) && me.pending.Some? && me.pending.value in q.hist
    ensures FatesOk(q, Delivered(me, q.hist[me.pending.value]))
  {
    var me' := Delivered(me, q.hist[me.pending.value]);
    assert me'.delivered[..|me.delivered|] == me.delivered;
    forall i | 0 <= i < |me'.delivered|
      ensures && me'.delivered[i].ticket in me'.got && me'.delivered[i].ticket in q.hist
              && me'.delivered[i].data == q.hist[me'.delivered[i].ticket]
    {
      if i < |me.delivered| { assert me'.delivered[i] == me.delivered[i]; }
    }
  }

  predicate SameFates(me: Worker, me': Worker) { Fates(me') == Fates(me) && Count(me') == Count(me) }

  lemma ReadingKeeps(q: Queue, me: Worker)
    requires Mpmc.RingOk(q) && WorkerOk(q, me) && me.pc.Reading?
    ensures var me' := Looked(me, SlotOf(q, me.pending.value).word);
            WorkerOk(q, me') && SameFates(me, me')
  {
    var t := me.pending.value;
    assert t in Fates(me);
    assert SlotOk(q, Ix(t, q.cap));
    var word := SlotOf(q, t).word;
    if word.Seq? && word.n > t {
      PassedMeansLapped(q, t);
      DropBooks(me);
      DropFates(q, me);
    }
  }

  lemma CopyKeeps(q: Queue, me: Worker)
    requires Mpmc.RingOk(q) && WorkerOk(q, me) && me.pc.Copied?
    ensures |SlotOf(q, me.pending.value).data| == q.width
    ensures var me' := CopiedOn(q, me, SlotOf(q, me.pending.value));
            WorkerOk(q, me') && SameFates(me, me')
  {
    var t := me.pending.value;
    assert t in Fates(me);
    assert SlotOk(q, Ix(t, q.cap));
    if |me.pc.buf| == q.width {
      if SlotOf(q, t).word == Seq(t) {
        assert me.pc.buf == q.hist[t];
        DeliverBooks(me, q.hist[t]);
        DeliverFates(q, me);
      } else {
        PassedMeansLapped(q, t);
        DropBooks(me);
        DropFates(q, me);
      }
    }
  }

  lemma {:induction false} RangeSize(a: nat, b: nat)
    requires a <= b
    ensures |Range(a, b)| == b - a
    decreases b - a
  {
    if a < b { RangeSize(a + 1, b); }
  }

  lemma DrawBooks(me: Worker, t: nat)
    requires BooksOk(me) && me.pending.None? && Below(me.got, t) && Below(me.lost, t)
    ensures var me' := me.(pending := Some(t), pc := Reading);
            BooksOk(me') && Fates(me') == Fates(me) + {t} && Count(me') == Count(me) + 1
  {
  }

  lemma DisjointSize(a: set<nat>, b: set<nat>)
    requires a !! b
    ensures |a + b| == |a| + |b|
  {
  }

  lemma SkipBooks(me: Worker, a: nat, b: nat)
    requires BooksOk(me) && me.pending.None? && Below(me.got, a) && Below(me.lost, a) && a <= b
    ensures var me' := Skipped(me, a, b);
            BooksOk(me') && Fates(me') == Fates(me) + Range(a, b) && Count(me') == Count(me) + (b - a)
  {
    RangeSize(a, b);
    assert me.lost !! Range(a, b);
    DisjointSize(me.lost, Range(a, b));
  }

  /** A worker's tickets grew by exactly `a..b`. */
  predicate Grew(me: Worker, me': Worker, a: nat, b: nat) {
    a <= b && Fates(me') == Fates(me) + Range(a, b) && Count(me') == Count(me) + (b - a)
  }

  lemma GrewByNothing(me: Worker, me': Worker, r: nat)
    requires SameFates(me, me')
    ensures Grew(me, me', r, r)
  {
  }

  lemma SkipFates(q: Queue, me: Worker, floor: nat)
    requires FatesOk(q, me) && me.pending.None? && 1 <= q.readSeq <= floor && floor + q.cap <= q.claimSeq
    ensures FatesOk(q.(readSeq := floor), Skipped(me, q.readSeq, floor))
  {
    var me' := Skipped(me, q.readSeq, floor);
    assert forall t :: t in me'.lost ==> t in me.lost || q.readSeq <= t < floor;
    assert DeliveriesOk(q.(readSeq := floor), me');
  }

  lemma DrawFates(q: Queue, me: Worker)
    requires FatesOk(q, me) && me.pending.None? && q.readSeq >= 1
    ensures FatesOk(q.(readSeq := q.readSeq + 1), me.(pending := Some(q.readSeq), pc := Reading))
  {
  }

  lemma SkipKeeps(q: Queue, me: Worker, floor: nat)
    requires Shape(q) && WorkerOk(q, me) && me.pending.None? && 1 <= q.readSeq <= floor && floor + q.cap <= q.claimSeq
    ensures var me' := Skipped(me, q.readSeq, floor);
            WorkerOk(q.(readSeq := floor), me') && Grew(me, me', q.readSeq, floor)
  {
    SkipBooks(me, q.readSeq, floor);
    SkipFates(q, me, floor);
  }

  lemma DrawKeeps(q: Queue, me: Worker)
    requires Shape(q) && WorkerOk(q, me) && me.pending.None? && q.readSeq >= 1
    ensures var me' := me.(pending := Some(q.readSeq), pc := Reading);
            WorkerOk(q.(readSeq := q.readSeq + 1), me') && Grew(me, me', q.readSeq, q.readSeq + 1)
  {
    DrawBooks(me, q.readSeq);
    DrawFates(q, me);
    assert Range(q.readSeq, q.readSeq + 1) == {q.readSeq};
  }

  lemma CompareStays(q: Queue, me: Worker, pc: Pc)
    requires Shape(q) && WorkerOk(q, me) && me.pending.None? && (pc.Top? || pc.Drawing?)
    ensures WorkerOk(q, me.(pc := pc)) && Grew(me, me.(pc := pc), q.readSeq, q.readSeq)
  {
    GrewByNothing(me, me.(pc := pc), q.readSeq);
  }

  /** What a comparison of the two counters leads to: nothing drawn, those a full ring behind
      skipped, or one ticket drawn. */
  predicate Leads(q: Queue, me: Worker, me': Worker, r: nat) {
    || (r == q.readSeq && (me' == me.(pc := Top) || me' == me.(pc := Drawing)))
    || (q.readSeq < r && r + q.cap <= q.claimSeq && me' == Skipped(me, q.readSeq, r))
    || (r == q.readSeq + 1 <= q.claimSeq && me' == me.(pending := Some(q.readSeq), pc := Reading))
  }

  lemma CompareLeads(q: Queue, me: Worker)
    requires Ready(q, me) && me.pc.Compared? && me.pc.claimSeq <= q.claimSeq
    ensures var (me', r) := Moved(q, me); Leads(q, me, me', r)
  {
  }

  /** Drawing a ticket adds just that one; skipping those a full ring behind adds exactly them. */
  lemma CompareKeeps(q: Queue, me: Worker, me': Worker, r: nat)
    requires Shape(q) && WorkerOk(q, me) && me.pc.Compared? && 1 <= q.readSeq <= q.claimSeq && Leads(q, me, me', r)
    ensures r <= q.claimSeq && WorkerOk(q.(readSeq := r), me') && Grew(me, me', q.readSeq, r)
  {
    if r == q.readSeq {
      assert q.(readSeq := q.readSeq) == q;
      CompareStays(q, me, me'.pc);
    } else if me'.pending.Some? {
      DrawKeeps(q, me);
    } else {
      SkipKeeps(q, me, r);
    }
  }

  lemma StillKeeps(q: Queue, me: Worker)
    requires Mpmc.RingOk(q) && WorkerOk(q, me) && !me.pc.Compared? && 1 <= q.readSeq
    ensures Ready(q, me) && Moved(q, me).1 == q.readSeq
    ensures WorkerOk(q, Moved(q, me).0) && SameFates(me, Moved(q, me).0)
  {
    match me.pc
    case Reading => ReadingKeeps(q, me);
    case Copied(_) => CopyKeeps(q, me);
    case Checking =>
      if q.claimSeq > me.pending.value + q.cap {
        DropBooks(me);
        DropFates(q, me);
      }
    case _ =>
  }

  /** Whatever a worker does, its tickets grow by exactly the stretch the shared counter moves over. */
  lemma MovedKeeps(q: Queue, me: Worker)
    requires Mpmc.RingOk(q) && WorkerOk(q, me) && 1 <= q.readSeq <= q.claimSeq
    ensures Ready(q, me)
    ensures var (me', r) := Moved(q, me);
            r <= q.claimSeq && WorkerOk(q.(readSeq := r), me') && Grew(me, me', q.readSeq, r)
  {
    if me.pc.Compared? {
      CompareLeads(q, me);
      CompareKeeps(q, me, Moved(q, me).0, Moved(q, me).1);
    } else {
      StillKeeps(q, me);
      assert q.(readSeq := q.readSeq) == q;
      GrewByNothing(me, Moved(q, me).0, q.readSeq);
    }
  }

  // ------------------------------------------------------------------ all workers

  predicate Exclusive(q: Queue, a: nat, b: nat)
    requires a < |q.workers| && b < |q.workers|
  {
    a != b ==> Fates(q.workers[a]) !! Fates(q.workers[b])
  }

  predicate DealsWith(q: Queue, w: nat, t: nat) { w < |q.workers| && t in Fates(q.workers[w]) }

  ghost predicate Fated(q: Queue, t: nat) { exists w :: DealsWith(q, w, t) }

  function Total(ws: seq<Worker>): nat { if ws == [] then 0 else Count(ws[0]) + Total(ws[1..]) }

  ghost predicate Inv(q: Queue) {
    && Mpmc.RingOk(q) && 1 <= q.readSeq <= q.claimSeq
    && (forall w :: 0 <= w < |q.workers| ==> WorkerOk(q, q.workers[w]))
    && (forall a, b :: 0 <= a < |q.workers| && 0 <= b < |q.workers| ==> Exclusive(q, a, b))
    && (forall t: nat :: 1 <= t < q.readSeq ==> Fated(q, t))
    && Total(q.workers) == q.readSeq - 1
  }

  lemma {:induction false} TotalUpdate(ws: seq<Worker>, w: nat, me: Worker)
    requires w < |ws|
    ensures Total(ws[w := me]) == Total(ws) - Count(ws[w]) + Count(me)
  {
    if w == 0 {
      assert ws[w := me][1..] == ws[1..];
    } else {
      TotalUpdate(ws[1..], w - 1, me);
      assert ws[w := me][1..] == ws[1..][w - 1 := me];
    }
  }

  lemma {:induction false} TotalOfIdle(ws: seq<Worker>)
    requires forall w :: 0 <= w < |ws| ==> ws[w] == Worker(None, 0, [], {}, {}, Top)
    ensures Total(ws) == 0
  {
    if ws != [] { TotalOfIdle(ws[1..]); }
  }

  lemma InitInv(q: Queue)
    requires Init(q)
    ensures Inv(q)
  {
    InitHolds(q);
    TotalOfIdle(q.workers);
  }

  lemma PushKeepsInv(q: Queue, q': Queue, p: nat, step: PushStep)
    requires Inv(q) && Pushes(q, q', p, step)
    ensures Inv(q')
  {
    PushKeeps(q, q', p, step);
    forall w | 0 <= w < |q'.workers| ensures WorkerOk(q', q'.workers[w]) {
      PushKeepsWorker(q, q', p, step, q.workers[w]);
    }
    forall a, b | 0 <= a < |q'.workers| && 0 <= b < |q'.workers| ensures Exclusive(q', a, b) {
      assert Exclusive(q, a, b);
    }
    forall t: nat | 1 <= t < q'.readSeq ensures Fated(q', t) {
      assert Fated(q, t);
      var w :| DealsWith(q, w, t);
      assert DealsWith(q', w, t);
    }
  }

  /** What one worker does leaves the others' books alone. */
  lemma OtherWorkerKeeps(q: Queue, r: nat, ws: seq<Worker>, me: Worker)
    requires Shape(q) && WorkerOk(q, me) && q.readSeq <= r
    ensures WorkerOk(q.(readSeq := r, workers := ws), me)
  {
  }

  lemma RingUnmoved(q: Queue, r: nat, ws: seq<Worker>)
    requires Mpmc.RingOk(q)
    ensures Mpmc.RingOk(q.(readSeq := r, workers := ws))
  {
    var q' := q.(readSeq := r, workers := ws);
    forall i | 0 <= i < q.cap ensures SlotOk(q', i) { assert SlotOk(q, i); }
    forall p | 0 <= p < |q.producers| ensures ProducerOk(q', q'.producers[p]) { assert ProducerOk(q, q.producers[p]); }
    forall a, b | 0 <= a < |q.producers| && 0 <= b < |q.producers| ensures Distinct(q', a, b) { assert Distinct(q, a, b); }
  }

  lemma FatesBelow(q: Queue, me: Worker)
    requires FatesOk(q, me)
    ensures Below(Fates(me), q.readSeq)
  {
  }

  lemma StretchExclusive(f: set<nat>, g: set<nat>, a: nat, b: nat)
    requires f !! g && Below(g, a)
    ensures f + Range(a, b) !! g
  {
  }

  lemma ActKeepsExclusive(q: Queue, w: nat, q': Queue, a: nat, b: nat)
    requires Shape(q) && w < |q.workers| && a < |q.workers| && b < |q.workers| && Exclusive(q, a, b)
    requires Below(Fates(q.workers[a]), q.readSeq) && Below(Fates(q.workers[b]), q.readSeq)
    requires |q'.workers| == |q.workers| && q'.workers == q.workers[w := q'.workers[w]]
    requires Grew(q.workers[w], q'.workers[w], q.readSeq, q'.readSeq)
    ensures Exclusive(q', a, b)
  {
    if a != b && a == w { StretchExclusive(Fates(q.workers[a]), Fates(q.workers[b]), q.readSeq, q'.readSeq); }
    if a != b && b == w { StretchExclusive(Fates(q.workers[b]), Fates(q.workers[a]), q.readSeq, q'.readSeq); }
  }

  lemma ActKeepsFated(q: Queue, w: nat, q': Queue, t: nat)
    requires w < |q.workers| && t < q'.readSeq && (t < q.readSeq ==> Fated(q, t))
    requires |q'.workers| == |q.workers| && q'.workers == q.workers[w := q'.workers[w]]
    requires Grew(q.workers[w], q'.workers[w], q.readSeq, q'.readSeq)
    ensures Fated(q', t)
  {
    if t < q.readSeq {
      var x :| DealsWith(q, x, t);
      assert DealsWith(q', x, t);
    } else {
      assert DealsWith(q', w, t);
    }
  }

  lemma RecvKeepsWorkers(q: Queue, w: nat, x: nat)
    requires Mpmc.RingOk(q) && w < |q.workers| && x < |q.workers| && 1 <= q.readSeq <= q.claimSeq
    requires WorkerOk(q, q.workers[w]) && WorkerOk(q, q.workers[x])
    ensures Ready(q, q.workers[w]) && WorkerOk(Acted(q, w), Acted(q, w).workers[x])
  {
    MovedKeeps(q, q.workers[w]);
    var (me, r) := Moved(q, q.workers[w]);
    if x == w { OtherWorkerKeeps(q.(readSeq := r), r, Acted(q, w).workers, me); }
    else { OtherWorkerKeeps(q, r, Acted(q, w).workers, q.workers[x]); }
  }

  lemma RecvKeepsAllWorkers(q: Queue, w: nat)
    requires Inv(q) && w < |q.workers| && Ready(q, q.workers[w])
    ensures forall x :: 0 <= x < |q.workers| ==> WorkerOk(Acted(q, w), Acted(q, w).workers[x])
  {
    forall x | 0 <= x < |q.workers| ensures WorkerOk(Acted(q, w), Acted(q, w).workers[x]) {
      RecvKeepsWorkers(q, w, x);
    }
  }

  lemma RecvGrows(q: Queue, w: nat)
    requires Inv(q) && w < |q.workers|
    ensures Ready(q, q.workers[w])
    ensures var q' := Acted(q, w);
            && Grew(q.workers[w], q'.workers[w], q.readSeq, q'.readSeq) && q'.readSeq <= q'.claimSeq
            && q'.workers == q.workers[w := q'.workers[w]] && q' == q.(readSeq := q'.readSeq, workers := q'.workers)
  {
    MovedKeeps(q, q.workers[w]);
  }

  lemma RecvKeepsFates(q: Queue, w: nat, q': Queue)
    requires Inv(q) && w < |q.workers| && |q'.workers| == |q.workers|
    requires q'.workers == q.workers[w := q'.workers[w]] && Grew(q.workers[w], q'.workers[w], q.readSeq, q'.readSeq)
    ensures forall a, b :: 0 <= a < |q'.workers| && 0 <= b < |q'.workers| ==> Exclusive(q', a, b)
    ensures forall t: nat :: 1 <= t < q'.readSeq ==> Fated(q', t)
    ensures Total(q'.workers) == q'.readSeq - 1
  {
    forall a, b | 0 <= a < |q'.workers| && 0 <= b < |q'.workers| ensures Exclusive(q', a, b) {
      FatesBelow(q, q.workers[a]);
      FatesBelow(q, q.workers[b]);
      ActKeepsExclusive(q, w, q', a, b);
    }
    forall t: nat | 1 <= t < q'.readSeq ensures Fated(q', t) { ActKeepsFated(q, w, q', t); }
    TotalUpdate(q.workers, w, q'.workers[w]);
  }

  lemma RecvKeepsInv(q: Queue, w: nat)
    requires Inv(q) && w < |q.workers|
    ensures Ready(q, q.workers[w]) && Inv(Acted(q, w))
  {
    RecvGrows(q, w);
    var q' := Acted(q, w);
    RingUnmoved(q, q'.readSeq, q'.workers);
    RecvKeepsAllWorkers(q, w);
    RecvKeepsFates(q, w, q');
  }

  lemma StepKeeps(q: Queue, q': Queue, step: Step)
    requires Inv(q) && NextStep(q, q', step)
    ensures Inv(q') && Evolves(q, q')
  {
    match step
    case Push(p, s) =>
      PushKeepsInv(q, q', p, s);
      PushKeeps(q, q', p, s);
    case Recv(w) => RecvKeepsInv(q, w);
  }

  // ------------------------------------------------------------------ runs

  ghost predicate Steps(q: Queue, q': Queue) { exists step :: NextStep(q, q', step) }

  ghost predicate StepAt(run: seq<Queue>, i: nat)
    requires 0 < i < |run|
  {
    Steps(run[i - 1], run[i])
  }

  /** Any interleaving; whoever takes no further step has crashed or been descheduled. */
  ghost predicate Run(run: seq<Queue>) {
    run != [] && Init(run[0]) && forall i :: 0 < i < |run| ==> StepAt(run, i)
  }

  lemma {:induction false} RunKeeps(run: seq<Queue>, i: nat)
    requires Run(run) && i < |run|
    ensures Inv(run[i])
  {
    if i == 0 {
      InitInv(run[0]);
    } else {
      RunKeeps(run, i - 1);
      assert StepAt(run, i);
      var step :| NextStep(run[i - 1], run[i], step);
      StepKeeps(run[i - 1], run[i], step);
    }
  }

  /** A worker never gets stuck: in every state of every run its next load or copied word is defined
      and in bounds, and taking it goes on with the run. */
  lemma WorkersGoOn(run: seq<Queue>, i: nat, w: nat)
    requires Run(run) && i < |run| && w < |run[i].workers|
    ensures Ready(run[i], run[i].workers[w]) && NextStep(run[i], Acted(run[i], w), Recv(w))
  {
    RunKeeps(run, i);
    RecvKeepsInv(run[i], w);
  }

  /** However producers stall, take over and die, no two are ever writing the same slot. */
  lemma OneWriterPerSlot(run: seq<Queue>, i: nat, a: nat, b: nat)
    requires Run(run) && i < |run| && a < |run[i].producers| && b < |run[i].producers| && a != b
    requires run[i].producers[a].Copying? && run[i].producers[b].Copying? && run[i].cap >= 1
    ensures Ix(run[i].producers[a].seq_, run[i].cap) != Ix(run[i].producers[b].seq_, run[i].cap)
  {
    RunKeeps(run, i);
    WritersApart(run[i], a, b);
  }

  lemma PublishedIsNewest(q: Queue, q': Queue, p: nat, step: PushStep, n: nat, m: nat)
    requires Mpmc.RingOk(q) && Pushes(q, q', p, step) && n in q'.hist && n !in q.hist
    requires m in q.hist && Ix(m, q.cap) == Ix(n, q.cap)
    ensures m < n && SlotOf(q, n).word == Writing
  {
    assert ProducerOk(q, q.producers[p]) && SlotOk(q, Ix(n, q.cap));
  }

  /** The sequences published in one slot strictly increase. */
  lemma PublishedSequencesIncrease(run: seq<Queue>, i: nat, n: nat, m: nat)
    requires Run(run) && 0 < i < |run| && run[i].cap >= 1
    requires n in run[i].hist && n !in run[i - 1].hist && m in run[i - 1].hist
    requires Ix(m, run[i].cap) == Ix(n, run[i].cap)
    ensures m < n
  {
    RunKeeps(run, i - 1);
    assert StepAt(run, i);
    var step :| NextStep(run[i - 1], run[i], step);
    if step.Push? { PublishedIsNewest(run[i - 1], run[i], step.p, step.s, n, m); }
  }

  /** Every item delivered is, whole, the one its producer pushed under that ticket, and each worker
      delivers in ticket order. */
  lemma DeliveredItemsAreWhole(run: seq<Queue>, i: nat, w: nat, k: nat)
    requires Run(run) && i < |run| && w < |run[i].workers| && k < |run[i].workers[w].delivered|
    ensures var m := run[i].workers[w].delivered[k];
            && m.ticket in run[i].offered && m.data == run[i].offered[m.ticket]
            && forall j :: 0 <= j < k ==> run[i].workers[w].delivered[j].ticket < m.ticket
  {
    RunKeeps(run, i);
    assert WorkerOk(run[i], run[i].workers[w]);
  }

  /** Every ticket drawn by a worker has exactly one fate, with exactly one worker: delivered once,
      dropped, or pending. */
  lemma EveryTicketHasOneFate(run: seq<Queue>, i: nat, t: nat)
    requires Run(run) && i < |run| && 1 <= t < run[i].readSeq
    ensures exists w :: DealsWith(run[i], w, t)
    ensures forall a, b :: DealsWith(run[i], a, t) && DealsWith(run[i], b, t) ==> a == b
    ensures forall w :: 0 <= w < |run[i].workers| ==> BooksOk(run[i].workers[w])
  {
    RunKeeps(run, i);
    assert Fated(run[i], t);
    forall a, b | DealsWith(run[i], a, t) && DealsWith(run[i], b, t) ensures a == b {
      assert Exclusive(run[i], a, b);
    }
    forall w | 0 <= w < |run[i].workers| ensures BooksOk(run[i].workers[w]) {
      assert WorkerOk(run[i], run[i].workers[w]);
    }
  }

  /** Delivered, dropped and pending add up to the tickets drawn, and workers never draw a ticket
      that no producer has drawn. */
  lemma TicketsAddUp(run: seq<Queue>, i: nat)
    requires Run(run) && i < |run|
    ensures Total(run[i].workers) == run[i].readSeq - 1 && run[i].readSeq <= run[i].claimSeq
  {
    RunKeeps(run, i);
  }

  /** A ticket is dropped only after the producers have drawn more than a full ring past it. */
  lemma OnlyLappedTicketsAreDropped(run: seq<Queue>, i: nat, w: nat, t: nat)
    requires Run(run) && i < |run| && w < |run[i].workers| && t in run[i].workers[w].lost
    ensures run[i].claimSeq > t + run[i].cap
  {
    RunKeeps(run, i);
    assert WorkerOk(run[i], run[i].workers[w]);
  }
}
