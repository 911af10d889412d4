/** Runs in which an empty message is dropped as lapped, at the first check and at the second. */
module EmptyBlobs {
  import opened Modular
  import opened SlotProtocol
  import opened Arena
  import opened BlobRing
  import BC = BlobConsumer
  import Wire

  const G := Wire.Geometry(16, true, 64)

  predicate Starts(s: BC.System) { Init(G, s.state) && s.state.ring.cap == 4 && s.consumer == BC.Attach(s.state) }

  ghost predicate Reaches(s: BC.System, n: nat)
    decreases n
  {
    if n == 0 then Starts(s) else exists p :: Reaches(p, n - 1) && BC.Steps(G, false, p, s)
  }

  /** Some run of producer and consumer leads from an empty ring to `s`. */
  ghost predicate Reachable(s: BC.System) { exists n: nat :: Reaches(s, n) }

  lemma Longer(s: BC.System, s': BC.System)
    requires Reachable(s) && BC.Steps(G, false, s, s')
    ensures Reachable(s')
  {
    var n: nat :| Reaches(s, n);
    assert Reaches(s', n + 1);
  }

  /** One action of the producer, the consumer standing still. */
  lemma Produce(s: BC.System, t: State, step: PushStep) returns (s': BC.System)
    requires Reachable(s) && Pushes(G, s.state, t, step) && ByProducer(s.state, step)
    ensures s' == s.(state := t) && Reachable(s')
  {
    s' := s.(state := t);
    assert BC.NextStep(G, false, s, s', BC.Push(step));
    Longer(s, s');
  }

  /** One action of the consumer, the producer standing still. */
  lemma Consume(s: BC.System) returns (s': BC.System)
    requires Reachable(s) && BC.Actable(s.state, s.consumer)
    ensures s' == s.(consumer := BC.Act(s.state, s.consumer, true, false)) && Reachable(s')
  {
    s' := s.(consumer := BC.Act(s.state, s.consumer, true, false));
    assert BC.NextStep(G, false, s, s', BC.Receive(true));
    Longer(s, s');
  }

  // ------------------------------------------------------------------ writing a slot

  lemma {:induction false} CopyRest(s: BC.System, n: nat, item: seq<int>, k: nat) returns (t: BC.System)
    requires Reachable(s) && s.state.phase.Storing? && CopiedTo(s.state.ring, n, item, k) && |s.state.data| >= 1
    ensures Reachable(t) && t == s.(state := s.state.(ring := AllCopied(s.state.ring, n, item)))
    decreases s.state.ring.width - k
  {
    var r := s.state.ring;
    if k == r.width {
      NothingLeft(r, n, item);
      t := s;
    } else {
      OneMoreCopied(r, n, item, k);
      SameInTheEnd(r, n, item, k);
      var u := Produce(s, s.state.(ring := OneMore(r, n, item, k)), Store(CopyWord));
      t := CopyRest(u, n, item, k + 1);
    }
  }

  lemma BeginStore(s: BC.System) returns (t: BC.System)
    requires Reachable(s) && HasLast(s.state) && s.state.phase == Filling(|Last(s.state).payload|)
    requires |Last(s.state).descriptor| == s.state.ring.width && |s.state.data| >= 1
    requires Shape(s.state.ring) && s.state.ring.writer.Quiet? && s.state.last == s.state.ring.top + 1
    ensures Reachable(t) && t.consumer == s.consumer
    ensures t.state == s.state.(ring := Begun(s.state.ring, Last(s.state).descriptor), phase := Storing)
  {
    var r, d := s.state.ring, Last(s.state).descriptor;
    assert Writes(r, Begun(r, d), WriterStep.Begin(r.top + 1, d));
    t := Produce(s, s.state.(ring := Begun(r, d), phase := Storing), Store(WriterStep.Begin(r.top + 1, d)));
  }

  lemma FinishStore(s: BC.System, r: Ring, item: seq<int>) returns (t: BC.System)
    requires Reachable(s) && s.state.phase.Storing? && |s.state.data| >= 1 && Shape(r) && r.writer.Quiet? && |item| == r.width
    requires s.state.ring == AllCopied(Begun(r, item), r.top + 1, item)
    ensures Reachable(t) && t == s.(state := s.state.(ring := WithNext(r, item), phase := Ready))
  {
    WrittenByFinish(r, item);
    t := Produce(s, s.state.(ring := WithNext(r, item), phase := Ready), Store(WriterStep.Finish));
  }

  /** The rest of a push whose payload is in the arena. */
  lemma StoreNewest(s: BC.System) returns (t: BC.System)
    requires Reachable(s) && HasLast(s.state) && s.state.phase == Filling(|Last(s.state).payload|)
    requires |Last(s.state).descriptor| == s.state.ring.width && |s.state.data| >= 1
    requires Shape(s.state.ring) && s.state.ring.writer.Quiet? && s.state.last == s.state.ring.top + 1
    ensures Reachable(t) && t.consumer == s.consumer
    ensures t.state == s.state.(ring := WithNext(s.state.ring, Last(s.state).descriptor), phase := Ready)
  {
    var r, item := s.state.ring, Last(s.state).descriptor;
    var b := BeginStore(s);
    var c := CopyRest(b, r.top + 1, item, 0);
    t := FinishStore(c, r, item);
  }

  // ------------------------------------------------------------------ three pushes

  /** An empty payload and one byte, placed where the counter stands at the start of a line. */
  lemma Places(cur: nat, payload: seq<Byte>)
    requires (cur == 0 || cur == 64) && |payload| <= 1
    ensures var (p, next) := Reservation(G, 64, cur, [], payload, 0);
            && next == cur + 64 * |payload| && p.payload == payload && |p.descriptor| == 16
            && p.descriptor == RefBytes(p.blob) && (payload == [] ==> p.blob == EMPTY)
            && At(p.blob, 0, 64) == 0
  {
    var (p, next) := Reservation(G, 64, cur, [], payload, 0);
    assert [] + RefBytes(p.blob) == RefBytes(p.blob);
    assert Ix(cur, 64) == 0 by { assert 64 % 64 == 0; }
    if payload != [] { assert Place(cur, 1, 64) == (cur, cur + 64); }
  }

  lemma Reserved(s: BC.System, payload: seq<Byte>) returns (t: BC.System)
    requires Reachable(s) && s.state.phase.Ready? && s.state.ring.width == 16 && |s.state.data| == 64
    requires |payload| <= 1 && s.state.last < 10 && (s.state.reserved == 0 || s.state.reserved == 64)
    ensures Reachable(t)
    ensures var (p, next) := Reservation(G, 64, s.state.reserved, [], payload, 0);
            var n := s.state.last + 1;
            t == s.(state := s.state.(reserved := next, sent := s.state.sent[n := p], last := n, phase := Filling(0)))
  {
    Places(s.state.reserved, payload);
    var n := s.state.last + 1;
    var (p, next) := Reservation(G, 64, s.state.reserved, [], payload, 0);
    var state := s.state.(reserved := next, sent := s.state.sent[n := p], last := n, phase := Filling(0));
    t := Produce(s, state, Reserve(n, [], payload, 0));
  }

  lemma OneFilled(s: BC.System) returns (t: BC.System)
    requires Reachable(s) && s.state.phase == Filling(0) && HasLast(s.state) && |Last(s.state).payload| == 1
    requires |s.state.data| == 64 && At(Last(s.state).blob, 0, 64) == 0
    ensures Reachable(t) && t == s.(state := s.state.(data := t.state.data, phase := Filling(1))) && |t.state.data| == 64
  {
    t := Produce(s, s.state.(data := s.state.data[0 := Last(s.state).payload[0]], phase := Filling(1)), Fill);
  }

  function Beginning(): BC.System {
    var s := State(Fresh(4, 16), seq(64, _ => 0), 0, map[], 0, Ready);
    BC.System(s, BC.Consumer(1, 1, 0, [], 0, BC.Idle))
  }

  /** An empty message and a message of one byte have been pushed. */
  predicate TwoPushed(s: BC.System) {
    && s.consumer == BC.Consumer(1, 1, 0, [], 0, BC.Idle) && |s.state.data| == 64 && s.state.reserved == 64
    && s.state.phase.Ready? && Shape(s.state.ring) && s.state.ring.cap == 4 && s.state.ring.width == 16
    && s.state.last == s.state.ring.top == 2 && 1 in s.state.sent && s.state.sent[1] == Packet(RefBytes(EMPTY), EMPTY, [])
    && s.state.ring.slots[1] == Slot(Seq(1), RefBytes(EMPTY)) && 1 in s.state.ring.hist
  }

  lemma EmptyPushed() returns (s: BC.System)
    ensures Reachable(s)
    ensures s == Beginning().(state := Beginning().state.(sent := map[1 := Packet(RefBytes(EMPTY), EMPTY, [])], last := 1,
                              ring := WithNext(Fresh(4, 16), RefBytes(EMPTY))))
  {
    var b := Beginning();
    assert Reaches(b, 0) by { assert Modular.Aligned(64) by { assert Ix(64, 64) == Ix(0, 64); } }
    Places(0, []);
    var r := Reserved(b, []);
    s := StoreNewest(r);
  }

  lemma BothPushed() returns (s: BC.System)
    ensures Reachable(s) && TwoPushed(s)
  {
    var one := EmptyPushed();
    Places(0, [7]);
    var r := Reserved(one, [7]);
    var f := OneFilled(r);
    s := StoreNewest(f);
    assert Ix(1, 4) == 1 && Ix(2, 4) == 2;
  }

  // ------------------------------------------------------------------ reading the empty message

  /** The consumer has copied `k` words of a message that is there. */
  predicate ReadTo(s: BC.System, k: nat) {
    && Shape(s.state.ring) && |s.state.data| >= 1 && k <= s.state.ring.width
    && SlotOf(s.state.ring, s.consumer.cursor).word == Seq(s.consumer.cursor)
    && s.consumer.pc == BC.Reading(Copied(SlotOf(s.state.ring, s.consumer.cursor).data[..k]))
  }

  lemma ReadOne(s: BC.System, k: nat) returns (t: BC.System)
    requires Reachable(s) && ReadTo(s, k) && k < s.state.ring.width
    ensures Reachable(t) && ReadTo(t, k + 1) && t == s.(consumer := s.consumer.(pc := t.consumer.pc))
  {
    var data := SlotOf(s.state.ring, s.consumer.cursor).data;
    assert data[..k + 1] == data[..k] + [data[k]];
    t := Consume(s);
  }

  lemma {:induction false} ReadOn(s: BC.System, k: nat) returns (t: BC.System)
    requires Reachable(s) && ReadTo(s, k)
    ensures Reachable(t)
    ensures t == s.(consumer := s.consumer.(pc := BC.Reading(Done(Item(SlotOf(s.state.ring, s.consumer.cursor).data)))))
    decreases s.state.ring.width - k
  {
    if k == s.state.ring.width {
      var data := SlotOf(s.state.ring, s.consumer.cursor).data;
      assert data[..k] == data;
      t := Consume(s);
    } else {
      var u := ReadOne(s, k);
      t := ReadOn(u, k + 1);
    }
  }

  /** The consumer holds the empty message's descriptor, with exactly one arena reserved. */
  lemma EmptyHeld() returns (s: BC.System)
    ensures Reachable(s) && s.consumer == BC.Consumer(1, 1, 0, [], 0, BC.Described(RefBytes(EMPTY), EMPTY))
    ensures TwoPushed(s.(consumer := BC.Consumer(1, 1, 0, [], 0, BC.Idle)))
  {
    var p := BothPushed();
    assert Ix(1, 4) == 1;
    var a := Consume(p);
    var b := Consume(a);
    assert b.consumer.pc == BC.Reading(Copied(RefBytes(EMPTY)[..0]));
    var c := ReadOn(b, 0);
    RefRoundTrip([], EMPTY);
    assert [] + RefBytes(EMPTY) == RefBytes(EMPTY);
    s := Consume(c);
  }

  /** The consumer is at a check of an empty message, and drops it as lapped. */
  predicate DropsEmpty(s: BC.System) {
    && BC.IsMessage(s.state, s.consumer.cursor) && s.state.sent[s.consumer.cursor].payload == []
    && s.state.reserved > |s.state.data| && BC.Actable(s.state, s.consumer)
    && BC.Act(s.state, s.consumer, true, false) == BC.SkipCurrent(s.consumer)
  }

  /** It happens at the first check: the producer reserves while the consumer has the descriptor. */
  lemma DroppedAtFirstCheck()
    ensures exists s: BC.System :: Reachable(s) && s.consumer.pc.Described? && DropsEmpty(s)
  {
    var h := EmptyHeld();
    Places(64, [7]);
    var s := Reserved(h, [7]);
    assert DropsEmpty(s);
  }

  /** And at the second, once the first has passed. */
  lemma DroppedAtSecondCheck()
    ensures exists s: BC.System :: Reachable(s) && s.consumer.pc.Viewing? && DropsEmpty(s)
  {
    var h := EmptyHeld();
    var v := Consume(h);
    Places(64, [7]);
    var s := Reserved(v, [7]);
    assert DropsEmpty(s);
  }
}
