/** The multi-producer ring while all but one process stand still: a worker gets the ticket it is due
    and delivers or drops it, a producer publishes or gives up. */
module QueueProgress {
  import opened Basics
  import opened Modular
  import opened Mpmc
  import opened MpmcQueue

  // ------------------------------------------------------------------ one worker at work

  /** So many moves of a worker; they change nothing of the queue but the shared ticket counter. */
  predicate MovesTo(q: Queue, me: Worker, q': Queue, me': Worker, n: nat)
    decreases n
  {
    if n == 0 then q == q' && me == me'
    else Ready(q, me) && MovesTo(q.(readSeq := Moved(q, me).1), Moved(q, me).0, q', me', n - 1)
  }

  lemma {:induction false} MovesJoin(a: Queue, x: Worker, b: Queue, y: Worker, c: Queue, z: Worker, m: nat, n: nat)
    requires MovesTo(a, x, b, y, m) && MovesTo(b, y, c, z, n)
    ensures MovesTo(a, x, c, z, m + n)
    decreases m
  {
    if m > 0 { MovesJoin(a.(readSeq := Moved(a, x).1), Moved(a, x).0, b, y, c, z, m - 1, n); }
  }

  /** Some number of moves that leave the ticket counter alone. */
  ghost predicate Gets(q: Queue, me: Worker, me': Worker) { exists n: nat :: MovesTo(q, me, q, me', n) }

  lemma GetsJoin(q: Queue, a: Worker, b: Worker, c: Worker)
    requires Gets(q, a, b) && Gets(q, b, c)
    ensures Gets(q, a, c)
  {
    var m: nat :| MovesTo(q, a, q, b, m);
    var n: nat :| MovesTo(q, b, q, c, n);
    MovesJoin(q, a, q, b, q, c, m, n);
  }

  lemma Stays(q: Queue, me: Worker)
    ensures Gets(q, me, me)
  {
    assert MovesTo(q, me, q, me, 0);
  }

  /** One move other than a draw. */
  lemma Move1(q: Queue, me: Worker) returns (me': Worker)
    requires Ready(q, me) && !me.pc.Compared?
    ensures me' == Moved(q, me).0 && Gets(q, me, me')
  {
    me' := Moved(q, me).0;
    assert q.(readSeq := Moved(q, me).1) == q;
    assert MovesTo(q, me', q, me', 0);
    assert MovesTo(q, me, q, me', 1);
  }

  // ------------------------------------------------------------------ a pending ticket

  /** The slot of ticket `t` holds its message. */
  predicate Present(q: Queue, t: nat)
    requires Shape(q)
  {
    SlotOf(q, t).word == Seq(t)
  }

  predicate Sound(q: Queue, me: Worker) { RingOk(q) && WorkerOk(q, me) }

  /** What a published message's slot holds. */
  lemma PresentData(q: Queue, t: nat)
    requires RingOk(q) && t >= 1 && Present(q, t)
    ensures t in q.hist && SlotOf(q, t).data == q.hist[t] && |q.hist[t]| == q.width
    ensures t in q.offered && q.hist[t] == q.offered[t]
  {
    assert SlotOk(q, Ix(t, q.cap));
  }

  /** Words copied one after the other, and the second look. */
  lemma {:induction false} CopiesOut(q: Queue, me: Worker, t: nat, item: seq<int>, buf: seq<int>)
    requires Shape(q) && me.pending == Some(t) && Present(q, t) && me.pc == Copied(buf)
    requires SlotOf(q, t).data == item && |item| == q.width && |buf| <= q.width && buf == item[..|buf|]
    ensures Gets(q, me, Delivered(me, item))
    decreases q.width - |buf|
  {
    var d := Move1(q, me);
    if |buf| < q.width {
      var more := buf + [item[|buf|]];
      assert more == item[..|more|];
      assert d == me.(pc := Copied(more));
      CopiesOut(q, d, t, item, more);
      GetsJoin(q, me, d, Delivered(me, item));
    } else {
      assert buf == item;
    }
  }

  lemma LooksAndCopies(q: Queue, me: Worker, t: nat)
    requires RingOk(q) && t >= 1 && me.pending == Some(t) && Present(q, t) && me.pc.Reading?
    ensures t in q.hist && Gets(q, me, Delivered(me, q.hist[t]))
  {
    PresentData(q, t);
    var d := Move1(q, me);
    CopiesOut(q, d, t, q.hist[t], []);
    GetsJoin(q, me, d, Delivered(me, q.hist[t]));
  }

  /** The worker is about to drop its ticket by the producers' counter alone, having looked at the slot
      too early. */
  predicate DropsUnseen(q: Queue, me: Worker) {
    me.pending.Some? && me.pc.Checking? && q.claimSeq > me.pending.value + q.cap
  }

  lemma BeginsToLook(q: Queue, me: Worker) returns (me': Worker)
    requires Ready(q, me) && me.pending.Some? && !DropsUnseen(q, me)
    requires me.pc.Top? || me.pc.Reading? || me.pc.Checking?
    ensures Gets(q, me, me') && me' == me.(pc := Reading)
  {
    me' := me;
    Stays(q, me);
    if me'.pc.Checking? { me' := Move1(q, me); }
    if me'.pc.Top? {
      var d := me';
      me' := Move1(q, d);
      GetsJoin(q, me, d, me');
    }
  }

  /** A ticket whose message is in its slot is delivered: finitely many moves of the worker that holds
      it return the message, as pushed under that ticket. Only a worker that looked at the slot too
      early, and has since been lapped by the producers' ticket counter, does not. */
  lemma PublishedTicketIsDelivered(q: Queue, me: Worker)
    requires Sound(q, me) && me.pending.Some? && Present(q, me.pending.value) && !DropsUnseen(q, me)
    ensures var t := me.pending.value;
            t in q.hist && t in q.offered && q.hist[t] == q.offered[t] && Gets(q, me, Delivered(me, q.hist[t]))
  {
    var t := me.pending.value;
    PresentData(q, t);
    if me.pc.Copied? {
      CopiesOut(q, me, t, q.hist[t], me.pc.buf);
    } else {
      var d := BeginsToLook(q, me);
      LooksAndCopies(q, d, t);
      GetsJoin(q, me, d, Delivered(me, q.hist[t]));
    }
  }

  lemma {:induction false} CopiesInVain(q: Queue, me: Worker, t: nat)
    requires Shape(q) && me.pending == Some(t) && !Present(q, t) && me.pc.Copied? && |me.pc.buf| <= q.width
    ensures Gets(q, me, Dropped(me, t))
    decreases q.width - |me.pc.buf|
  {
    var d := Move1(q, me);
    if |me.pc.buf| < q.width {
      CopiesInVain(q, d, t);
      GetsJoin(q, me, d, Dropped(me, t));
    }
  }

  /** A ticket more than a ring behind the producers whose message is not in its slot is dropped. */
  lemma LappedTicketIsDropped(q: Queue, me: Worker)
    requires Sound(q, me) && me.pending.Some? && !Present(q, me.pending.value) && q.claimSeq > me.pending.value + q.cap
    ensures Gets(q, me, Dropped(me, me.pending.value))
  {
    var t := me.pending.value;
    if me.pc.Copied? {
      CopiesInVain(q, me, t);
    } else if me.pc.Checking? {
      var d := Move1(q, me);
    } else {
      var d := BeginsToLook(q, me);
      var e := Move1(q, d);
      GetsJoin(q, me, d, e);
      if e.pc.Checking? {
        var f := Move1(q, e);
        GetsJoin(q, me, e, f);
      }
    }
  }

  /** Any other ticket is waited for: its message has not been published, and no move gives it up. */
  lemma OpenTicketIsKept(q: Queue, me: Worker)
    requires Sound(q, me) && me.pending.Some? && !Present(q, me.pending.value) && q.claimSeq <= me.pending.value + q.cap
    ensures me.pending.value !in q.hist
    ensures Ready(q, me)
    ensures var d := Moved(q, me).0;
            Moved(q, me).1 == q.readSeq && d == me.(pc := d.pc) && (d.pc.Top? || d.pc.Reading? || d.pc.Checking?)
  {
    var t := me.pending.value;
    assert SlotOk(q, Ix(t, q.cap));
    if t in q.hist || (SlotOf(q, t).word.Seq? && SlotOf(q, t).word.n > t) { PassedMeansLapped(q, t); }
  }

  // ------------------------------------------------------------------ drawing the next ticket

  ghost predicate Reaches(q: Queue, me: Worker, q': Queue, me': Worker) { exists n: nat :: MovesTo(q, me, q', me', n) }

  lemma ReachesJoin(a: Queue, x: Worker, b: Queue, y: Worker, c: Queue, z: Worker)
    requires Reaches(a, x, b, y) && Reaches(b, y, c, z)
    ensures Reaches(a, x, c, z)
  {
    var m: nat :| MovesTo(a, x, b, y, m);
    var n: nat :| MovesTo(b, y, c, z, n);
    MovesJoin(a, x, b, y, c, z, m, n);
  }

  lemma Compare1(q: Queue, me: Worker) returns (q': Queue, me': Worker)
    requires Ready(q, me) && me.pc.Compared?
    ensures me' == Moved(q, me).0 && q' == q.(readSeq := Moved(q, me).1) && Reaches(q, me, q', me')
  {
    q', me' := q.(readSeq := Moved(q, me).1), Moved(q, me).0;
    assert MovesTo(q', me', q', me', 0);
    assert MovesTo(q, me, q', me', 1);
  }

  /** The two loads that precede the compare-and-swap. */
  lemma LoadsCounters(q: Queue, me: Worker) returns (me': Worker)
    requires Ready(q, me) && me.pending.None? && (me.pc.Top? || me.pc.Drawing?)
    ensures Gets(q, me, me') && me' == me.(pc := Compared(q.readSeq, q.claimSeq))
  {
    var d := me;
    Stays(q, me);
    if me.pc.Top? { d := Move1(q, me); }
    var e := Move1(q, d);
    me' := Move1(q, e);
    GetsJoin(q, me, d, e);
    GetsJoin(q, me, e, me');
  }

  /** The ticket a worker is due: the next one, or the first that is not a full ring behind the
      producers. */
  predicate Due(q: Queue, t: nat) {
    q.readSeq <= t < q.claimSeq <= t + q.cap && (t == q.readSeq || t + q.cap == q.claimSeq)
  }

  /** The worker holds ticket `t`, having counted those before it as dropped. */
  function Holding(q: Queue, me: Worker, t: nat): Worker
    requires q.readSeq <= t
  {
    me.(pending := Some(t), pc := Reading, dropped := me.dropped + (t - q.readSeq), lost := me.lost + Range(q.readSeq, t))
  }

  /** With tickets left, the worker draws the one it is due. */
  lemma DueTicketIsDrawn(q: Queue, me: Worker) returns (t: nat)
    requires Ready(q, me) && me.pending.None? && (me.pc.Top? || me.pc.Drawing?) && q.readSeq < q.claimSeq
    ensures Due(q, t) && Reaches(q, me, q.(readSeq := t + 1), Holding(q, me, t))
  {
    var d := LoadsCounters(q, me);
    var q', e := Compare1(q, d);
    ReachesJoin(q, me, q, d, q', e);
    t := Max(q.readSeq, PrevLap(q.claimSeq, q.cap));
    if t == q.readSeq {
      assert me.lost + Range(t, t) == me.lost;
    } else {
      var f := LoadsCounters(q', e);
      ReachesJoin(q, me, q', e, q', f);
      var q2, h := Compare1(q', f);
      ReachesJoin(q, me, q', f, q2, h);
    }
  }

  /** An empty queue is found empty: the call returns and nothing has changed. */
  lemma EmptyIsFoundEmpty(q: Queue, me: Worker)
    requires Ready(q, me) && me.pending.None? && (me.pc.Top? || me.pc.Drawing?) && q.readSeq >= q.claimSeq
    ensures Gets(q, me, me.(pc := Top))
  {
    var d := LoadsCounters(q, me);
    var q', e := Compare1(q, d);
    assert q' == q;
    ReachesJoin(q, me, q, d, q, e);
  }

  // ------------------------------------------------------------------ the books along the way

  lemma MoveKeepsSound(q: Queue, me: Worker)
    requires Sound(q, me) && 1 <= q.readSeq <= q.claimSeq
    ensures Ready(q, me)
    ensures var (d, r) := Moved(q, me); Sound(q.(readSeq := r), d) && q.readSeq <= r <= q.claimSeq
  {
    var r := Moved(q, me).1;
    MovedKeeps(q, me);
    RingUnmoved(q, r, q.workers);
    assert q.(readSeq := r, workers := q.workers) == q.(readSeq := r);
  }

  lemma {:induction false} MovesKeep(q: Queue, me: Worker, q': Queue, me': Worker, n: nat)
    requires Sound(q, me) && 1 <= q.readSeq <= q.claimSeq && MovesTo(q, me, q', me', n)
    ensures Sound(q', me') && 1 <= q'.readSeq <= q'.claimSeq && q' == q.(readSeq := q'.readSeq)
    decreases n
  {
    if n > 0 {
      MoveKeepsSound(q, me);
      var (d, r) := Moved(q, me);
      MovesKeep(q.(readSeq := r), d, q', me', n - 1);
    }
  }

  lemma ReachesKeeps(q: Queue, me: Worker, q': Queue, me': Worker)
    requires Sound(q, me) && 1 <= q.readSeq <= q.claimSeq && Reaches(q, me, q', me')
    ensures Sound(q', me') && 1 <= q'.readSeq <= q'.claimSeq && q' == q.(readSeq := q'.readSeq)
  {
    var n: nat :| MovesTo(q, me, q', me', n);
    MovesKeep(q, me, q', me', n);
  }

  /** If the message of the ticket that is due is in its slot, a worker that holds none gets it. */
  lemma DueMessageIsDelivered(q: Queue, me: Worker, t: nat)
    requires Sound(q, me) && 1 <= q.readSeq && me.pending.None? && (me.pc.Top? || me.pc.Drawing?)
    requires Due(q, t) && Present(q, t)
    ensures t in q.hist && t in q.offered && q.hist[t] == q.offered[t]
    ensures exists me' :: && Reaches(q, me, q.(readSeq := t + 1), me') && me'.pending.None?
                          && me'.delivered == me.delivered + [Message(t, q.hist[t])]
                          && me'.dropped == me.dropped + (t - q.readSeq)
  {
    var u := DueTicketIsDrawn(q, me);
    assert u == t;
    var q', d := q.(readSeq := t + 1), Holding(q, me, t);
    ReachesKeeps(q, me, q', d);
    PublishedTicketIsDelivered(q', d);
    ReachesJoin(q, me, q', d, q', Delivered(d, q.hist[t]));
  }

  // ------------------------------------------------------------------ every call returns

  function Rank(pc: Pc): nat { match pc case Seen(_) => 2 case Compared(_, _) => 1 case _ => 0 }

  /** The part of a call that deals with a pending ticket: it ends with the message returned, with
      nothing returned, or with the ticket dropped. */
  lemma PendingIsDealtWith(q: Queue, me: Worker) returns (me': Worker)
    requires Sound(q, me) && me.pending.Some?
    ensures Gets(q, me, me') && (me'.pc.Top? || (me'.pc.Drawing? && me'.pending.None?))
  {
    var t: nat := me.pending.value;
    if DropsUnseen(q, me) {
      me' := Move1(q, me);
    } else if Present(q, t) {
      PublishedTicketIsDelivered(q, me);
      me' := Delivered(me, q.hist[t]);
    } else if q.claimSeq > t + q.cap {
      LappedTicketIsDropped(q, me);
      me' := Dropped(me, t);
    } else {
      OpenTicketIsKept(q, me);
      var d := Move1(q, me);
      me' := d;
      if me.pc.Top? { Stays(q, me); me' := me; }
      else if me.pc.Reading? {
        me' := Move1(q, d);
        GetsJoin(q, me, d, me');
      }
    }
  }

  /** `try_recv` never blocks: wherever a worker stands in it, finitely many of its moves bring it to
      the end of the call. */
  lemma {:induction false} CallsReturn(q: Queue, me: Worker) returns (q': Queue, me': Worker)
    requires Sound(q, me) && 1 <= q.readSeq <= q.claimSeq
    ensures Reaches(q, me, q', me') && me'.pc.Top?
    decreases q.claimSeq - q.readSeq, if me.pending.Some? then 1 else 0, Rank(me.pc)
  {
    var p, d := q, me;
    Stays(q, me);
    if me.pending.Some? {
      d := PendingIsDealtWith(q, me);
    } else if me.pc.Drawing? && q.readSeq < q.claimSeq {
      var t := DueTicketIsDrawn(q, me);
      p, d := q.(readSeq := t + 1), Holding(q, me, t);
    } else if me.pc.Drawing? {
      EmptyIsFoundEmpty(q, me);
      d := me.(pc := Top);
    } else if me.pc.Seen? {
      d := Move1(q, me);
    } else if me.pc.Compared? {
      p, d := Compare1(q, me);
    }
    q', me' := p, d;
    if !d.pc.Top? {
      ReachesKeeps(q, me, p, d);
      q', me' := CallsReturn(p, d);
      ReachesJoin(q, me, p, d, q', me');
    }
  }

  // ------------------------------------------------------------------ in a run

  /** So many steps of worker `w` while everyone else stands still. */
  predicate Serves(q: Queue, w: nat, q': Queue, n: nat)
    decreases n
  {
    if n == 0 then q == q'
    else w < |q.workers| && Ready(q, q.workers[w]) && Serves(Acted(q, w), w, q', n - 1)
  }

  /** The queue with worker `w` and the ticket counter changed. */
  function With(q: Queue, w: nat, me: Worker, readSeq: nat): Queue
    requires w < |q.workers|
  {
    q.(workers := q.workers[w := me], readSeq := readSeq)
  }

  lemma MovesAlike(q: Queue, w: nat, me: Worker)
    requires w < |q.workers| && Ready(q, me)
    ensures Ready(With(q, w, me, q.readSeq), me) && Moved(With(q, w, me, q.readSeq), me) == Moved(q, me)
  {
  }

  lemma {:induction false} MovesServe(q: Queue, w: nat, me: Worker, q': Queue, me': Worker, n: nat)
    requires w < |q.workers| && MovesTo(q, me, q', me', n)
    ensures Serves(With(q, w, me, q.readSeq), w, With(q, w, me', q'.readSeq), n)
    decreases n
  {
    if n > 0 {
      var (d, r) := Moved(q, me);
      MovesAlike(q, w, me);
      assert Acted(With(q, w, me, q.readSeq), w) == With(q.(readSeq := r), w, d, r);
      MovesServe(q.(readSeq := r), w, d, q', me', n - 1);
    }
  }

  /** Worker `w` gets there by finitely many steps of its own. */
  ghost predicate Comes(q: Queue, w: nat, me: Worker, readSeq: nat)
    requires w < |q.workers|
  {
    exists n: nat :: Serves(q, w, With(q, w, me, readSeq), n)
  }

  lemma ReachesComes(q: Queue, w: nat, q': Queue, me': Worker)
    requires w < |q.workers| && Reaches(q, q.workers[w], q', me')
    ensures Comes(q, w, me', q'.readSeq)
  {
    var n: nat :| MovesTo(q, q.workers[w], q', me', n);
    MovesServe(q, w, q.workers[w], q', me', n);
    assert With(q, w, q.workers[w], q.readSeq) == q;
  }

  lemma WorkerSound(run: seq<Queue>, i: nat, w: nat)
    requires Run(run) && i < |run| && w < |run[i].workers|
    ensures Sound(run[i], run[i].workers[w]) && 1 <= run[i].readSeq <= run[i].claimSeq
  {
    RunKeeps(run, i);
  }

  /** In every state of every run, a worker that holds a ticket whose message is in its slot returns
      that message, as its producer pushed it, by finitely many steps of its own. */
  lemma PendingMessageIsReturned(run: seq<Queue>, i: nat, w: nat)
    requires Run(run) && i < |run| && w < |run[i].workers| && Shape(run[i])
    requires run[i].workers[w].pending.Some? && Present(run[i], run[i].workers[w].pending.value)
    requires !DropsUnseen(run[i], run[i].workers[w])
    ensures var me := run[i].workers[w]; var t := me.pending.value;
            && t in run[i].offered
            && exists me' :: && Comes(run[i], w, me', run[i].readSeq) && me'.pending.None? && me'.dropped == me.dropped
                             && me'.delivered == me.delivered + [Message(t, run[i].offered[t])]
  {
    var (q, me) := (run[i], run[i].workers[w]);
    WorkerSound(run, i, w);
    PublishedTicketIsDelivered(q, me);
    ReachesComes(q, w, q, Delivered(me, q.hist[me.pending.value]));
  }

  /** And a worker that holds none, at the beginning of a call, returns the message of the ticket it
      is due, if that is in its slot. */
  lemma DueMessageIsReturned(run: seq<Queue>, i: nat, w: nat, t: nat)
    requires Run(run) && i < |run| && w < |run[i].workers| && Shape(run[i])
    requires run[i].workers[w].pending.None? && (run[i].workers[w].pc.Top? || run[i].workers[w].pc.Drawing?)
    requires Due(run[i], t) && Present(run[i], t)
    ensures t in run[i].offered
    ensures var me := run[i].workers[w];
            exists me' :: && Comes(run[i], w, me', t + 1) && me'.pending.None?
                          && me'.dropped == me.dropped + (t - run[i].readSeq)
                          && me'.delivered == me.delivered + [Message(t, run[i].offered[t])]
  {
    var (q, me) := (run[i], run[i].workers[w]);
    WorkerSound(run, i, w);
    DueMessageIsDelivered(q, me, t);
    var me' :| && Reaches(q, me, q.(readSeq := t + 1), me') && me'.pending.None?
               && me'.dropped == me.dropped + (t - q.readSeq)
               && me'.delivered == me.delivered + [Message(t, q.hist[t])];
    ReachesComes(q, w, q.(readSeq := t + 1), me');
  }

  /** In every state of every run, a worker's ticket that has been lapped and is not in its slot is
      dropped by finitely many steps of the worker. */
  lemma LostTicketIsDropped(run: seq<Queue>, i: nat, w: nat)
    requires Run(run) && i < |run| && w < |run[i].workers| && Shape(run[i]) && run[i].workers[w].pending.Some?
    requires var t := run[i].workers[w].pending.value; !Present(run[i], t) && run[i].claimSeq > t + run[i].cap
    ensures Comes(run[i], w, Dropped(run[i].workers[w], run[i].workers[w].pending.value), run[i].readSeq)
  {
    WorkerSound(run, i, w);
    LappedTicketIsDropped(run[i], run[i].workers[w]);
    ReachesComes(run[i], w, run[i], Dropped(run[i].workers[w], run[i].workers[w].pending.value));
  }

  /** In every state of every run, the call a worker is in can be finished by steps of its own. */
  lemma TryRecvNeverBlocks(run: seq<Queue>, i: nat, w: nat)
    requires Run(run) && i < |run| && w < |run[i].workers|
    ensures exists me', readSeq :: Comes(run[i], w, me', readSeq) && me'.pc.Top?
  {
    WorkerSound(run, i, w);
    var q', me' := CallsReturn(run[i], run[i].workers[w]);
    ReachesComes(run[i], w, q', me');
  }
}
