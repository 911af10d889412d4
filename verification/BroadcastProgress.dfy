/** A broadcast reader of a multi-producer ring that stands still: the message at its cursor is
    returned, a reader that was outrun is moved up, and every call comes to its end. */
module BroadcastProgress {
  import opened Basics
  import opened Modular
  import opened Mpmc
  import opened MpmcBroadcast
  import opened QueueProgress

  /** So many loads of the reader. */
  predicate ActsTo(q: Queue, c: Reader, c': Reader, n: nat)
    decreases n
  {
    if n == 0 then c == c' else Actable(q, c) && ActsTo(q, Act(q, c), c', n - 1)
  }

  lemma {:induction false} ActsJoin(q: Queue, a: Reader, b: Reader, c: Reader, m: nat, n: nat)
    requires ActsTo(q, a, b, m) && ActsTo(q, b, c, n)
    ensures ActsTo(q, a, c, m + n)
    decreases m
  {
    if m > 0 { ActsJoin(q, Act(q, a), b, c, m - 1, n); }
  }

  ghost predicate Comes(q: Queue, c: Reader, c': Reader) { exists n: nat :: ActsTo(q, c, c', n) }

  lemma ComesJoin(q: Queue, a: Reader, b: Reader, c: Reader)
    requires Comes(q, a, b) && Comes(q, b, c)
    ensures Comes(q, a, c)
  {
    var m: nat :| ActsTo(q, a, b, m);
    var n: nat :| ActsTo(q, b, c, n);
    ActsJoin(q, a, b, c, m, n);
  }

  lemma Stays(q: Queue, c: Reader)
    ensures Comes(q, c, c)
  {
    assert ActsTo(q, c, c, 0);
  }

  lemma Act1(q: Queue, c: Reader) returns (c': Reader)
    requires Actable(q, c)
    ensures c' == Act(q, c) && Comes(q, c, c')
  {
    c' := Act(q, c);
    assert ActsTo(q, c', c', 0);
    assert ActsTo(q, c, c', 1);
  }

  /** The reader has returned the message at its cursor. */
  function Returning(c: Reader, item: seq<int>): Reader {
    c.(delivered := c.delivered + [Message(c.cursor, item)], cursor := c.cursor + 1, pc := Quiet)
  }

  lemma {:induction false} TakesOut(q: Queue, c: Reader, item: seq<int>, buf: seq<int>)
    requires Shape(q) && Present(q, c.cursor) && c.pc == Taking(buf)
    requires SlotOf(q, c.cursor).data == item && |item| == q.width && |buf| <= q.width && buf == item[..|buf|]
    ensures Comes(q, c, Returning(c, item))
    decreases q.width - |buf|
  {
    var d := Act1(q, c);
    if |buf| < q.width {
      var more := buf + [item[|buf|]];
      assert more == item[..|more|];
      assert d == c.(pc := Taking(more));
      TakesOut(q, d, item, more);
      ComesJoin(q, c, d, Returning(c, item));
    } else {
      assert buf == item;
    }
  }

  /** A published message at the cursor is returned, whole. */
  lemma MessageAtCursorIsReturned(q: Queue, c: Reader)
    requires RingOk(q) && ReaderOk(q, c) && Present(q, c.cursor) && (c.pc.Quiet? || c.pc.Looking? || c.pc.Taking?)
    ensures c.cursor in q.hist && Comes(q, c, Returning(c, q.hist[c.cursor]))
  {
    PresentData(q, c.cursor);
    var item, d := q.hist[c.cursor], c;
    Stays(q, c);
    if d.pc.Quiet? { d := Act1(q, c); }
    if d.pc.Looking? {
      var e := Act1(q, d);
      ComesJoin(q, c, d, e);
      d := e;
    }
    TakesOut(q, d, item, d.pc.buf);
    ComesJoin(q, c, d, Returning(c, item));
  }

  /** What a reader that is outrun, with `newest` in view, moves up to. */
  function MovedUp(c: Reader, newest: nat, cap: nat): Reader
    requires newest >= c.cursor + cap
  {
    c.(cursor := newest - cap + 1, lapped := c.lapped + (newest - cap + 1 - c.cursor), pc := Looking)
  }

  /** A reader that finds a newer message in its slot, or the slot unready and a ring more announced,
      moves up to a ring behind the newest it knows of, and counts what it passes. */
  lemma OutrunIsMovedUp(q: Queue, c: Reader)
    requires RingOk(q) && ReaderOk(q, c) && c.pc.Looking? && !Present(q, c.cursor)
    requires var word := SlotOf(q, c.cursor).word; (word.Seq? && word.n > c.cursor) || q.writeSeq >= c.cursor + q.cap
    ensures var word := SlotOf(q, c.cursor).word;
            var newest := Max(q.writeSeq, if word.Seq? && word.n > c.cursor then word.n else 0);
            newest >= c.cursor + q.cap && Comes(q, c, MovedUp(c, newest, q.cap))
  {
    assert SlotOk(q, Ix(c.cursor, q.cap));
    var word := SlotOf(q, c.cursor).word;
    if word.Seq? && word.n > c.cursor { SameRemainder(word.n, c.cursor, q.cap); }
    var d := Act1(q, c);
    var e := d;
    if d.pc.Unready? {
      e := Act1(q, d);
      ComesJoin(q, c, d, e);
    }
    var f := Act1(q, e);
    ComesJoin(q, c, e, f);
  }

  /** Otherwise the call returns nothing and the reader stays where it is. */
  lemma UnreadyIsWaitedFor(q: Queue, c: Reader)
    requires RingOk(q) && ReaderOk(q, c) && (c.pc.Quiet? || c.pc.Looking?) && !Present(q, c.cursor)
    requires var word := SlotOf(q, c.cursor).word; !(word.Seq? && word.n > c.cursor) && q.writeSeq < c.cursor + q.cap
    ensures Comes(q, c, c.(pc := Quiet))
  {
    var d := c;
    Stays(q, c);
    if d.pc.Quiet? { d := Act1(q, c); }
    var e := Act1(q, d);
    ComesJoin(q, c, d, e);
    var f := Act1(q, e);
    ComesJoin(q, c, e, f);
  }

  function Rank(pc: MpmcBroadcast.Pc): nat { match pc case Quiet => 0 case Behind(_) => 1 case Unready => 2 case Taking(_) => 3 case Looking => 4 }

  function Left(q: Queue, c: Reader): nat { if c.pc.Taking? && |c.pc.buf| <= q.width then q.width - |c.pc.buf| else 0 }

  lemma NewestIsDrawn(q: Queue, c: Reader)
    requires RingOk(q) && AnnouncedOk(q) && ReaderOk(q, c) && c.pc.Behind?
    ensures Max(q.writeSeq, c.pc.seen) < q.claimSeq
  {
  }

  /** A call never blocks: from any load in it, finitely many more bring it to its end. */
  lemma {:induction false} CallsReturn(q: Queue, c: Reader) returns (c': Reader)
    requires RingOk(q) && AnnouncedOk(q) && ReaderOk(q, c)
    ensures Comes(q, c, c') && c'.pc.Quiet?
    decreases if c.cursor < q.claimSeq then q.claimSeq - c.cursor else 0, Rank(c.pc), Left(q, c)
  {
    c' := c;
    Stays(q, c);
    if !c.pc.Quiet? {
      if c.pc.Behind? { NewestIsDrawn(q, c); }
      ActKeeps(q, c);
      var d := Act1(q, c);
      c' := d;
      if !d.pc.Quiet? {
        c' := CallsReturn(q, d);
        ComesJoin(q, c, d, c');
      }
    }
  }
}
