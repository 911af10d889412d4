/** What a registered reader can lose before a scan has read its cursor: exactly what the cached gate
    lets through, and that does happen. */
module Exposure {
  import opened Basics
  import opened Modular
  import opened SlotProtocol
  import opened Lossless
  import C = Consumer

  // ------------------------------------------------------------------ pushes without a scan

  /** `t` follows from `s` by so many steps of pushing, with no scan and nobody else moving. */
  ghost predicate Pushing(s: System, t: System, steps: nat)
    decreases steps
  {
    if steps == 0 then s == t else exists u :: Pushing(s, u, steps - 1) && PushStep(u, t)
  }

  ghost predicate PushStep(s: System, t: System) { exists w :: ProducerNext(s, t, Write(w)) }

  /** Pushing alone can destroy the message at reader `id`'s cursor. */
  ghost predicate Exposed(s: System, id: nat)
    requires id in s.readers
  {
    exists t, n :: Pushing(s, t, n) && Shape(t.ring) && Gone(t.ring, s.readers[id].consumer.cursor)
  }

  /** A live reader whose registration no scan has noticed yet, with nothing lost so far. */
  predicate Unnoticed(s: System, id: nat) {
    && id in s.readers && Alive(s, s.readers[id]) && s.readers[id].phase.Registered? && s.readers[id].covered.None?
    && Safe(s.ring, s.readers[id].consumer)
  }

  /** What pushing keeps, and how far it gets. */
  predicate PushedSafely(s: System, t: System) {
    && RingOk(t.ring) && Dense(t.ring) && t.producer == s.producer && t.readers == s.readers && t.ring.cap == s.ring.cap
    && s.ring.top <= t.ring.top && (t.ring.top > s.ring.top ==> t.ring.top < s.producer.gate)
  }

  lemma PushStepKeeps(s: System, t: System, u: System)
    requires PushedSafely(s, t) && PushStep(t, u)
    ensures PushedSafely(s, u)
  {
    var w :| ProducerNext(t, u, Write(w));
    WriterKeeps(t.ring, u.ring, w);
    DenseKept(t.ring, u.ring, w);
  }

  lemma {:induction false} PushingKeeps(s: System, t: System, n: nat)
    requires RingOk(s.ring) && Dense(s.ring) && Pushing(s, t, n)
    ensures PushedSafely(s, t)
    decreases n
  {
    if n > 0 {
      var u :| Pushing(s, u, n - 1) && PushStep(u, t);
      PushingKeeps(s, u, n - 1);
      PushStepKeeps(s, u, t);
    }
  }

  // ------------------------------------------------------------------ pushing on

  ghost predicate CanPush(s: System, t: System) { exists n: nat :: Pushing(s, t, n) }

  lemma PushOn(s: System, t: System, u: System, w: WriterStep)
    requires CanPush(s, t) && ProducerNext(t, u, Write(w))
    ensures CanPush(s, u)
  {
    var n: nat :| Pushing(s, t, n);
    assert PushStep(t, u);
    assert Pushing(s, u, n + 1);
  }

  lemma {:induction false} CopyOn(s: System, t: System, n: nat, item: seq<int>, k: nat) returns (u: System)
    requires CanPush(s, t) && t.producer.pc.Running? && !t.producer.waiting && CopiedTo(t.ring, n, item, k)
    ensures CanPush(s, u) && u == t.(ring := AllCopied(t.ring, n, item))
    decreases t.ring.width - k
  {
    if k == t.ring.width {
      NothingLeft(t.ring, n, item);
      u := t;
    } else {
      OneMoreCopied(t.ring, n, item, k);
      SameInTheEnd(t.ring, n, item, k);
      var v := t.(ring := OneMore(t.ring, n, item, k));
      PushOn(s, t, v, CopyWord);
      u := CopyOn(s, v, n, item, k + 1);
    }
  }

  /** A whole message, if the gate lets it through. */
  lemma PushWhole(s: System, t: System, item: seq<int>) returns (u: System)
    requires CanPush(s, t) && t.producer.pc.Running? && !t.producer.waiting && Shape(t.ring) && t.ring.writer.Quiet?
    requires t.ring.top + 1 < t.producer.gate && |item| == t.ring.width
    ensures CanPush(s, u) && u == t.(ring := WithNext(t.ring, item)) && Shape(u.ring)
  {
    var b := t.(ring := Begun(t.ring, item));
    assert Writes(t.ring, b.ring, Begin(t.ring.top + 1, item));
    PushOn(s, t, b, Begin(t.ring.top + 1, item));
    var c := CopyOn(s, b, t.ring.top + 1, item, 0);
    WrittenByFinish(t.ring, item);
    u := t.(ring := WithNext(t.ring, item));
    PushOn(s, c, u, Finish);
  }

  lemma {:induction false} PushUpTo(s: System, t: System, n: nat) returns (u: System)
    requires CanPush(s, t) && t.producer.pc.Running? && !t.producer.waiting && Shape(t.ring) && t.ring.writer.Quiet?
    requires t.ring.top <= n < t.producer.gate
    ensures CanPush(s, u) && Shape(u.ring) && u.ring.writer.Quiet? && u.ring.top == n && u.producer == t.producer
    ensures u.ring.cap == t.ring.cap && u.ring.width == t.ring.width
    decreases n - t.ring.top
  {
    if t.ring.top == n {
      u := t;
    } else {
      var v := PushWhole(s, t, seq(t.ring.width, _ => 0));
      u := PushUpTo(s, v, n);
    }
  }

  /** The push a full ring after a message destroys it. */
  lemma PushDestroys(s: System, t: System, n: nat) returns (u: System)
    requires CanPush(s, t) && t.producer.pc.Running? && !t.producer.waiting && Shape(t.ring) && t.ring.writer.Quiet?
    requires n >= 1 && t.ring.top + 1 == n + t.ring.cap < t.producer.gate
    ensures CanPush(s, u) && Shape(u.ring) && Gone(u.ring, n)
  {
    var item := seq(t.ring.width, _ => 0);
    u := t.(ring := Begun(t.ring, item));
    assert Writes(t.ring, u.ring, Begin(t.ring.top + 1, item));
    PushOn(s, t, u, Begin(t.ring.top + 1, item));
    assert Ix(n + t.ring.cap, t.ring.cap) == Ix(n, t.ring.cap);
  }

  /** Between pushes, and outside the wait loop. */
  predicate BetweenPushes(s: System) { s.producer.pc.Running? && !s.producer.waiting && s.ring.writer.Quiet? }

  /** For every live, registered reader that no scan has noticed: the producer, pushing on without a
      scan, can destroy the message at its cursor if and only if the cached gate lies more than a
      ring above that cursor. */
  lemma CachedGateIsBlind(run: seq<System>, i: nat, id: nat)
    requires Run(run) && i < |run| && Unnoticed(run[i], id) && BetweenPushes(run[i])
    ensures Exposed(run[i], id) <==> run[i].producer.gate > run[i].readers[id].consumer.cursor + run[i].ring.cap
  {
    RunKeeps(run, i);
    BlindIff(run[i], id);
  }

  lemma BlindIff(s: System, id: nat)
    requires Inv(s) && Unnoticed(s, id) && BetweenPushes(s)
    ensures Exposed(s, id) <==> s.producer.gate > s.readers[id].consumer.cursor + s.ring.cap
  {
    assert ReaderOk(s, s.readers[id]);
    var n := s.readers[id].consumer.cursor;
    if Exposed(s, id) {
      var t, k :| Pushing(s, t, k) && Shape(t.ring) && Gone(t.ring, n);
      PushingKeeps(s, t, k);
      DenseGone(t.ring, n);
    }
    if s.producer.gate > n + s.ring.cap {
      assert Pushing(s, s, 0);
      assert CanPush(s, s);
      var t := PushUpTo(s, s, n + s.ring.cap - 1);
      var u := PushDestroys(s, t, n);
      var k: nat :| Pushing(s, u, k);
    }
  }

  // ------------------------------------------------------------------ and it happens

  ghost predicate Reaches(s: System, n: nat)
    decreases n
  {
    if n == 0 then Init(s) else exists p :: Reaches(p, n - 1) && Steps(p, s)
  }

  /** Some run leads from an empty ring to `s`. */
  ghost predicate Reachable(s: System) { exists n: nat :: Reaches(s, n) }

  lemma Next(s: System, s': System, step: Step)
    requires Reachable(s) && NextStep(s, s', step)
    ensures Reachable(s')
  {
    var n: nat :| Reaches(s, n);
    assert Steps(s, s');
    assert Reaches(s', n + 1);
  }

  lemma StepsKeep(p: System, s: System)
    requires Inv(p) && Steps(p, s)
    ensures Inv(s)
  {
    var step :| NextStep(p, s, step);
    StepKeeps(p, s, step);
  }

  lemma {:induction false} ReachableOk(s: System, n: nat)
    requires Reaches(s, n)
    ensures Inv(s)
    decreases n
  {
    if n == 0 {
      InitHolds(s);
    } else {
      var p :| Reaches(p, n - 1) && Steps(p, s);
      ReachableOk(p, n - 1);
      StepsKeep(p, s);
    }
  }

  const FREE := ReaderSlot(0, false, 0)

  function Idle(r: Ring, gate: nat): System { System(r, [FREE], Producer(Running, gate, false), map[], {}) }

  /** A scan of the one free slot of a ring of one message. */
  lemma Scan(r: Ring, gate: nat)
    requires Reachable(Idle(r, gate)) && Shape(r) && r.cap == 1 && r.writer.Quiet?
    ensures Reachable(Idle(r, r.top + 2))
  {
    var s := Idle(r, gate);
    var a := s.(producer := Producer(Scanning(0, LoadActive, None), gate, false));
    Next(s, a, Produce(StartScan));
    var b := a.(producer := Producer(Scanning(1, LoadActive, None), gate, false));
    Next(a, b, Produce(ScanLoad));
    Next(b, Idle(r, r.top + 2), Produce(EndScan));
  }

  /** One message pushed and announced under gate 2. */
  lemma PushFirst()
    requires Reachable(Idle(Fresh(1, 0), 2))
    ensures Reachable(Idle(WithNext(Fresh(1, 0), []).(writeSeq := 1), 2))
  {
    var f := Fresh(1, 0);
    var s, b := Idle(f, 2), Idle(Begun(f, []), 2);
    Next(s, b, Produce(Write(Begin(1, []))));
    WrittenByFinish(f, []);
    assert AllCopied(Begun(f, []), 1, []) == Begun(f, []);
    var w := Idle(WithNext(f, []), 2);
    Next(b, w, Produce(Write(Finish)));
    Next(w, Idle(WithNext(f, []).(writeSeq := 1), 2), Produce(Write(Publish)));
  }

  function Attached(r: Ring, phase: Phase, slot: ReaderSlot, since: nat): System {
    System(r, [slot], Producer(Running, 3, false),
           map[0 := Reader(7, phase, C.Consumer(1, 1, 0, [], 0, C.Lapped(0)), since, None)], {})
  }

  /** A reader attaches at the oldest message and wins the free slot. */
  lemma Attaches(r: Ring)
    requires Reachable(Idle(r, 3)) && Shape(r) && r.cap == 1 && r.top == 1 && r.writeSeq == 1
    ensures Reachable(Attached(r, Claimed(0), ReaderSlot(7, false, 0), 0))
  {
    var a := Attached(r, Starting, FREE, 0);
    assert C.Attach(r, C.Oldest) == C.Consumer(1, 1, 0, [], 0, C.Lapped(0));
    Next(Idle(r, 3), a, Read(0, Attach(7, C.Oldest)));
    var b := Attached(r, Loaded(0, 0), FREE, 0);
    Next(a, b, Read(0, Probe(0)));
    Next(b, Attached(r, Claimed(0), ReaderSlot(7, false, 0), 0), Read(0, Claim(true)));
  }

  /** And completes its registration. */
  lemma PlacesCursor(r: Ring)
    requires Reachable(Attached(r, Claimed(0), ReaderSlot(7, false, 0), 0)) && Shape(r)
    ensures Reachable(Attached(r, Placed(0), ReaderSlot(7, false, 1), 0))
  {
    var c := Attached(r, Claimed(0), ReaderSlot(7, false, 0), 0);
    var d := Attached(r, Hidden(0), ReaderSlot(7, false, 0), 0);
    Next(c, d, Read(0, Hide));
    Next(d, Attached(r, Placed(0), ReaderSlot(7, false, 1), 0), Read(0, Place));
  }

  lemma Registers(r: Ring)
    requires Reachable(Attached(r, Claimed(0), ReaderSlot(7, false, 0), 0)) && Shape(r) && r.top == 1
    ensures Reachable(Attached(r, Registered(0), ReaderSlot(7, true, 1), 1))
  {
    PlacesCursor(r);
    var e := Attached(r, Placed(0), ReaderSlot(7, false, 1), 0);
    Next(e, Attached(r, Registered(0), ReaderSlot(7, true, 1), 1), Read(0, Activate));
  }

  /** A registered reader does lose a message that way: in a ring of one message, with the gate of a
      scan made before it came, the next push takes the slot of the message it is waiting for. */
  lemma RegisteredReaderLosesItsMessage()
    ensures exists s :: && Reachable(s) && Unnoticed(s, 0) && BetweenPushes(s) && Exposed(s, 0)
                        && s.readers[0].consumer.delivered == [] && Shape(s.ring)
                        && Readable(s.ring, s.readers[0].consumer.cursor)
  {
    var f := Fresh(1, 0);
    assert Reaches(Idle(f, 0), 0);
    Scan(f, 0);
    PushFirst();
    var r := WithNext(f, []).(writeSeq := 1);
    Scan(r, 2);
    Attaches(r);
    Registers(r);
    var s := Attached(r, Registered(0), ReaderSlot(7, true, 1), 1);
    var n: nat :| Reaches(s, n);
    ReachableOk(s, n);
    BlindIff(s, 0);
  }
}
