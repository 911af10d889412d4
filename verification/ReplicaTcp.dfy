/** A source and a TCP-only mirror: the server streams the ring from a cursor of its own and the
    mirror follows in lockstep. */
module ReplicaTcp {
  import opened Basics
  import opened Wire
  import opened SourceRing
  import opened Mirror
  import opened Faithful
  import opened Stream
  import opened Account

  const HELLO_LATEST := 0
  const HELLO_OLDEST := 0xFFFF_FFFF_FFFF_FFFF

  /** `start` is the sequence announced in GEOMETRY and `joined` the source at that moment. The
      frames sent are all in `tcp`, of which `taken` have arrived. */
  datatype System = System(
    src: Source, gather: Gather, tcp: seq<Answer>, taken: nat,
    m: State, first: nat, start: nat, joined: Source, skipped: map<nat, Source>)

  /** Where a connection asking for `wanted` starts, and whether it asked for a sequence the
      source has not reached. */
  function Hello(s: Source, wanted: nat): (nat, bool)
    requires s.cap >= 1
  {
    if wanted == HELLO_LATEST then (s.writeSeq + 1, false)
    else if wanted == HELLO_OLDEST then (OldestRetained(s.writeSeq, s.cap), false)
    else if wanted > s.writeSeq + 1 then (s.writeSeq + 1, true)
    else (Max(wanted, OldestRetained(s.writeSeq, s.cap)), false)
  }

  /** `HELLO` for the latest starts just past what is announced, for the oldest at the oldest message
      retained, and for a sequence there, or at the oldest one retained if it is lost; only a sequence
      the source has not reached is refused, and answered with a start past what is announced. */
  lemma HelloStarts(g: Geometry, s: Source, wanted: nat)
    requires SourceOk(g, s)
    ensures var (cursor, reset) := Hello(s, wanted);
            && 1 <= cursor <= s.writeSeq + 1
            && (wanted == HELLO_LATEST ==> cursor == s.writeSeq + 1 && !reset)
            && (wanted == HELLO_OLDEST ==> !reset && AtOldest(s, s.writeSeq, 1, cursor))
            && (wanted != HELLO_LATEST && wanted != HELLO_OLDEST ==>
                  if wanted > s.writeSeq + 1 then reset && cursor == s.writeSeq + 1
                  else !reset && AtOldest(s, s.writeSeq, wanted, cursor) && AllGone(s, wanted, cursor))
  {
    ResyncSkipsOnlyGone(g, s, Max(wanted, 1), 0);
  }

  /** The handshake is done: either an existing ring is continued from its own position, or a
      fresh one starts where the source said. */
  ghost predicate Init(c: Config, s: System, wanted: nat, resumed: bool) {
    && ConfigOk(c) && SourceOk(c.g, s.src)
    && var (cursor, reset) := Hello(s.src, wanted);
    && (resumed ==> !reset && wanted != HELLO_LATEST && wanted != HELLO_OLDEST)
    && s.gather == Gather(cursor, [], None) && s.tcp == [] && s.taken == 0
    && s.start == cursor && s.joined == s.src && s.skipped == map[]
    && s.first == s.m.next == (if resumed then wanted else Max(1, cursor))
    && !s.m.failed && s.m.log == [] && s.m.restarts == 0
  }

  datatype Step =
    | Produce(produce: ProducerStep)
    | Read(res: RawRead)
    | FlushFrame
    | Resync
    | Arrive
    | Heartbeat(seq_: nat)

  predicate Moves(s: System, s': System, r: (Gather, seq<Answer>)) {
    s' == s.(gather := r.0, tcp := s.tcp + r.1)
  }

  predicate Takes(c: Config, s: System, s': System, res: RawRead) {
    HasRoom(c, TCP_FRAME_BYTES, s.gather) && Moves(s, s', Gathered(s.src, s.gather, res))
  }

  predicate Reads(c: Config, s: System, s': System, res: RawRead) {
    ReadOk(s.src, s.gather.cursor + |s.gather.records|, res) && Takes(c, s, s', res)
  }

  function Taken(c: Config, m: State, a: Answer): State
    requires ConfigOk(c) && !m.failed && m.next >= 1 && Sendable(a)
  {
    TcpHandled(c.g, m, DecodeHeader(AnswerBytes(a)[..FRAME_HEADER_LEN]), AnswerBytes(a)[FRAME_HEADER_LEN..])
  }

  /** The sequences a frame makes the mirror jump over. */
  function JumpedOver(s: System, a: Answer): map<nat, Source> {
    match a
    case Data(n, _) => Snapshots(s.m.next, n, s.joined)
    case Gap(n, _, at) => Snapshots(s.m.next, n, at)
  }

  predicate Arrives(c: Config, s: System, s': System)
    requires ConfigOk(c) && !s.m.failed && s.m.next >= 1
  {
    && s.taken < |s.tcp| && Sendable(s.tcp[s.taken])
    && s' == s.(taken := s.taken + 1, m := Taken(c, s.m, s.tcp[s.taken]),
                skipped := s.skipped + JumpedOver(s, s.tcp[s.taken]))
  }

  predicate NextStep(c: Config, s: System, s': System, step: Step) {
    && ConfigOk(c) && s.src.cap >= 1 && !s.m.failed && s.m.next >= 1
    && match step
    case Produce(p) => Produces(c.g, s.src, s'.src, p) && s' == s.(src := s'.src)
    case Read(res) => Reads(c, s, s', res)
    case FlushFrame => Moves(s, s', Flush(s.gather))
    case Resync => s.gather.resync.Some? && Moves(s, s', Resynced(s.src, s.gather))
    case Arrive => Arrives(c, s, s')
    // Heartbeats carry no position, so where they sit in the stream does not matter.
    case Heartbeat(n) =>
      && n < 0x1_0000_0000_0000_0000
      && s' == s.(m := TcpHandled(c.g, s.m, Wire.Frame(KIND_HEARTBEAT, 0, 0, 0, n), []))
  }

  // ------------------------------------------------------------------ invariant

  predicate SourceSide(c: Config, s: System) {
    && SourceOk(c.g, s.src) && GatherOk(c, s.src, s.gather) && AllHonest(s.src, s.tcp)
    && Evolves(s.joined, s.src) && AllGone(s.joined, s.first, s.start)
    && (forall i :: 0 <= i < |s.tcp| && s.tcp[i].Gap? ==> Evolves(s.joined, s.tcp[i].at))
  }

  /** The frames in flight tile the range from the mirror's position to the server's cursor; before
      the first one arrives the position may still lie where the ring was resumed. */
  predicate Lockstep(s: System) {
    && s.taken <= |s.tcp| && !s.m.failed && s.m.next >= 1 && s.m.restarts == 0
    && (if s.taken == 0 then s.m.next == s.first <= s.start && Tiles(s.tcp, s.start, s.gather.cursor)
        else Tiles(s.tcp[s.taken..], s.m.next, s.gather.cursor))
  }

  predicate Inv(c: Config, s: System) {
    SourceSide(c, s) && Lockstep(s) && Accounted(s.src, s.first, s.m, s.skipped)
  }

  lemma InitHolds(c: Config, s: System, wanted: nat, resumed: bool)
    requires Init(c, s, wanted, resumed)
    ensures Inv(c, s)
  {
    EvolvesReflexive(s.src);
    ResyncSkipsOnlyGone(c.g, s.src, s.first, 0);
    assert s.gather.records == Slice(s.src.pushed, s.gather.cursor, 0);
    assert EncodeRecords([]) == [];
    assert LogSeqs([]) == {};
    assert Range(s.first, s.m.next) == {};
  }

  lemma ProduceKeeps(c: Config, s: System, s': System, p: ProducerStep)
    requires ConfigOk(c) && Inv(c, s) && Produces(c.g, s.src, s'.src, p) && s' == s.(src := s'.src)
    ensures Inv(c, s')
  {
    ProducesKeepsOk(c.g, s.src, s'.src, p);
    HonestStable(c, s.src, s'.src, s.tcp, s.gather);
    AccountStable(s.src, s'.src, s.first, s.m, s.skipped);
  }

  lemma SendKeeps(c: Config, s: System, s': System, r: (Gather, seq<Answer>))
    requires ConfigOk(c) && Inv(c, s) && Moves(s, s', r)
    requires GatherOk(c, s.src, r.0) && AllHonest(s.src, r.1) && MadeNow(s.src, r.1)
    requires Tiles(r.1, s.gather.cursor, r.0.cursor)
    ensures Inv(c, s')
  {
    if s.taken == 0 {
      TilesJoin(s.tcp, r.1, s.start, s.gather.cursor, r.0.cursor);
    } else {
      TilesJoin(s.tcp[s.taken..], r.1, s.m.next, s.gather.cursor, r.0.cursor);
      assert s'.tcp[s.taken..] == s.tcp[s.taken..] + r.1;
    }
  }

  /** The next frame starts at the mirror's position, or ahead of it when it is the first. */
  lemma NextInLine(c: Config, s: System)
    requires ConfigOk(c) && Inv(c, s) && s.taken < |s.tcp|
    ensures var a := s.tcp[s.taken];
            && AnswerHonest(s.src, a) && Sendable(a)
            && s.m.next <= a.Start() < a.End()
            && (s.taken > 0 ==> a.Start() == s.m.next)
            && AllGone(s.joined, s.m.next, a.Start())
            && Tiles(s.tcp[s.taken + 1..], a.End(), s.gather.cursor)
  {
    var q := s.tcp[s.taken..];
    assert q[0] == s.tcp[s.taken] && q[1..] == s.tcp[s.taken + 1..];
    if s.taken == 0 { assert q == s.tcp; }
    AnswerDecodes(c, s.src, s.tcp[s.taken]);
  }

  lemma DataEffect(c: Config, s: Source, m: State, a: Answer)
    requires ConfigOk(c) && SourceOk(c.g, s) && AnswerHonest(s, a) && a.Data?
    requires !m.failed && 1 <= m.next <= a.seq_
    ensures Sendable(a)
    ensures var r := Taken(c, m, a);
            && !r.failed && r.next == a.End() && r.restarts == m.restarts
            && Grown(s.pushed, m.(next := a.seq_), r)
  {
    AnswerDecodes(c, s, a);
    AnswerFits(c, s, a);
    AllWrittenHonest(c.g, s.pushed, JumpedTo(m, a.seq_), a.seq_, a.seq_, |a.records|);
  }

  lemma GapEffect(c: Config, s: Source, m: State, a: Answer)
    requires ConfigOk(c) && SourceOk(c.g, s) && AnswerHonest(s, a) && a.Gap?
    requires !m.failed && 1 <= m.next < a.next
    ensures Sendable(a)
    ensures Taken(c, m, a) == m.(gaps := m.gaps + 1, next := a.next)
  {
    AnswerDecodes(c, s, a);
  }

  lemma ArriveKeeps(c: Config, s: System, s': System)
    requires ConfigOk(c) && Inv(c, s) && Arrives(c, s, s')
    ensures Inv(c, s')
  {
    NextInLine(c, s);
    var a := s.tcp[s.taken];
    if a.Data? {
      DataEffect(c, s.src, s.m, a);
      AccountAdvances(s.src, s.first, s.m, s'.m, s.skipped, s.joined, a.seq_);
    } else {
      GapEffect(c, s.src, s.m, a);
      GoneByThen(s.joined, a.at, s.m.next, a.from);
      GrownReflexive(s.src.pushed, s.m.(next := a.next), s'.m);
      AccountAdvances(s.src, s.first, s.m, s'.m, s.skipped, a.at, a.next);
    }
  }

  lemma GoneByThen(s: Source, s': Source, a: nat, b: nat)
    requires Evolves(s, s') && AllGone(s, a, b)
    ensures AllGone(s', a, b)
  {
    forall n | a <= n < b ensures Gone(s', n) { assert Gone(s, n); }
  }

  lemma StepKeeps(c: Config, s: System, s': System, step: Step)
    requires Inv(c, s) && NextStep(c, s, s', step)
    ensures Inv(c, s')
  {
    match step
    case Produce(p) => ProduceKeeps(c, s, s', p);
    case Read(res) =>
      GatheredOk(c, s.src, s.gather, res, TCP_FRAME_BYTES);
      SendKeeps(c, s, s', Gathered(s.src, s.gather, res));
    case FlushFrame =>
      FlushOk(c, s.src, s.gather);
      SendKeeps(c, s, s', Flush(s.gather));
    case Resync =>
      ResyncedOk(c, s.src, s.gather);
      SendKeeps(c, s, s', Resynced(s.src, s.gather));
    case Arrive => ArriveKeeps(c, s, s');
    case Heartbeat(n) =>
  }

  /** A heartbeat tells the mirror how far the source is, and nothing else. */
  lemma HeartbeatIsNoted(c: Config, s: System, s': System, n: nat)
    requires NextStep(c, s, s', Heartbeat(n))
    ensures s'.m.sourceSeq == Max(s.m.sourceSeq, n) && s' == s.(m := s.m.(sourceSeq := s'.m.sourceSeq))
  {
  }

  // ------------------------------------------------------------------ runs

  ghost predicate Steps(c: Config, s: System, s': System) { exists step :: NextStep(c, s, s', step) }

  ghost predicate StepAt(c: Config, run: seq<System>, i: nat)
    requires 0 < i < |run|
  {
    Steps(c, run[i - 1], run[i])
  }

  ghost predicate Run(c: Config, run: seq<System>, wanted: nat, resumed: bool) {
    && run != [] && Init(c, run[0], wanted, resumed)
    && forall i :: 0 < i < |run| ==> StepAt(c, run, i)
  }

  lemma {:induction false} RunKeeps(c: Config, run: seq<System>, wanted: nat, resumed: bool, i: nat)
    requires Run(c, run, wanted, resumed) && i < |run|
    ensures Inv(c, run[i])
  {
    if i == 0 {
      InitHolds(c, run[0], wanted, resumed);
    } else {
      RunKeeps(c, run, wanted, resumed, i - 1);
      assert StepAt(c, run, i);
      var step :| NextStep(c, run[i - 1], run[i], step);
      StepKeeps(c, run[i - 1], run[i], step);
    }
  }

  /** The frames in flight exactly bridge the mirror's position and the server's cursor, except
      that the very first may jump ahead of a resumed ring; a frame never lies behind the mirror, so
      the ring is never started over. */
  lemma TcpLockstep(c: Config, run: seq<System>, wanted: nat, resumed: bool, i: nat)
    requires Run(c, run, wanted, resumed) && i < |run|
    ensures var s := run[i];
            && s.taken <= |s.tcp| && s.m.restarts == 0 && !s.m.failed
            && Tiles(s.tcp[s.taken..], if s.taken == 0 then s.start else s.m.next, s.gather.cursor)
            && s.m.next <= s.gather.cursor
            && (s.taken < |s.tcp| ==> s.tcp[s.taken].Start() >= s.m.next)
            && (0 < s.taken < |s.tcp| ==> s.tcp[s.taken].Start() == s.m.next)
  {
    RunKeeps(c, run, wanted, resumed, i);
    var s := run[i];
    if s.taken == 0 { assert s.tcp[0..] == s.tcp; }
    if s.taken < |s.tcp| { NextInLine(c, s); }
    TilesOrdered(s.tcp[s.taken..], if s.taken == 0 then s.start else s.m.next, s.gather.cursor);
  }

  lemma {:induction false} TilesOrdered(q: seq<Answer>, a: nat, b: nat)
    requires Tiles(q, a, b)
    ensures a <= b
    decreases |q|
  {
    if q != [] { TilesOrdered(q[1..], q[0].End(), b); }
  }

  /** Over TCP too every sequence is written once, as pushed, or given up after it was lost. */
  lemma TcpMirrorIsFaithful(c: Config, run: seq<System>, wanted: nat, resumed: bool, i: nat)
    requires Run(c, run, wanted, resumed) && i < |run|
    ensures Accounted(run[i].src, run[i].first, run[i].m, run[i].skipped)
  {
    RunKeeps(c, run, wanted, resumed, i);
  }
}
