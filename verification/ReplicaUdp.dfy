/** A source, a UDP mirror and the network between them as one step system. Datagrams may be
    lost, repeated and reordered at will; the TCP connection is first in, first out. */
module ReplicaUdp {
  import opened Basics
  import opened Wire
  import opened SourceRing
  import opened Mirror
  import opened Faithful
  import opened Stream
  import opened Account

  datatype Datagram = Records(seq_: nat, records: seq<Record>) | Beat(seq_: nat)

  /** The thread that answers retransmission requests. `base` is where the answer in progress
      starts in the TCP history and `first` the sequence it started from. */
  datatype Server = Idle | Serving(to: nat, gather: Gather, first: nat, base: nat)

  /** `wire` holds every datagram ever sent. `tcp` and `m.sent` are the full histories of the two
      directions of the TCP connection, of which `taken` and `served` have been received.
      `skipped` maps each sequence the mirror gave up to the source as it was when the GAP
      covering it was sent. */
  datatype System = System(
    src: Source, sender: Gather, wire: set<Datagram>,
    server: Server, served: nat, tcp: seq<Answer>, taken: nat,
    m: State, first: nat, skipped: map<nat, Source>)

  // ------------------------------------------------------------------ frames as bytes

  predicate DatagramHonest(s: Source, d: Datagram) {
    match d
    case Records(n, rs) => AnswerHonest(s, Data(n, rs))
    case Beat(n) => n < 0x1_0000_0000_0000_0000
  }

  function DatagramBytes(c: Config, d: Datagram): seq<Byte>
    requires d.seq_ < 0x1_0000_0000_0000_0000
  {
    match d
    case Records(n, rs) => DataFrame(c.session, n, rs)
    case Beat(n) => EncodeHeader(Wire.Frame(KIND_HEARTBEAT, c.session, 0, 0, n))
  }

  lemma BodySlice(wire: seq<Byte>, body: seq<Byte>)
    requires |wire| == FRAME_HEADER_LEN + |body| && wire[FRAME_HEADER_LEN..] == body
    ensures wire[FRAME_HEADER_LEN..FRAME_HEADER_LEN + |body|] == body
  {
  }

  /** A datagram of this session with a DATA header of the right size is applied. */
  lemma DataHandled(c: Config, m: State, wire: seq<Byte>, f: Frame, expired: bool)
    requires ConfigOk(c) && Positive(m) && |wire| == FRAME_HEADER_LEN + f.len
    requires DecodeHeader(wire[..FRAME_HEADER_LEN]) == f && f.kind == KIND_DATA && f.flags == c.session
    requires FrameSizesOk(c.g, f.count, f.len)
    ensures DatagramHandled(c.g, c.session, m, wire, expired)
         == Applied(c.g, m, f.seq_, f.count, wire[FRAME_HEADER_LEN..FRAME_HEADER_LEN + f.len], expired)
  {
  }

  lemma RecordsArrive(c: Config, m: State, n: U64, rs: seq<Record>, expired: bool)
    requires ConfigOk(c) && Positive(m) && |rs| < 0x1_0000 && |EncodeRecords(rs)| < 0x1_0000_0000
    requires FrameSizesOk(c.g, |rs|, |EncodeRecords(rs)|)
    ensures DatagramHandled(c.g, c.session, m, DataFrame(c.session, n, rs), expired)
         == Applied(c.g, m, n, |rs|, EncodeRecords(rs), expired)
  {
    var (wire, bytes) := (DataFrame(c.session, n, rs), EncodeRecords(rs));
    DataFrameDecodes(c.session, n, rs);
    BodySlice(wire, bytes);
    DataHandled(c, m, wire, Wire.Frame(KIND_DATA, c.session, |rs|, |bytes|, n), expired);
  }

  lemma DatagramArrives(c: Config, s: Source, m: State, d: Datagram, expired: bool)
    requires ConfigOk(c) && SourceOk(c.g, s) && DatagramHonest(s, d) && Positive(m)
    ensures DatagramHandled(c.g, c.session, m, DatagramBytes(c, d), expired)
         == if d.Beat? then SourceSeqSeen(m, d.seq_, expired)
            else Applied(c.g, m, d.seq_, |d.records|, EncodeRecords(d.records), expired)
  {
    match d
    case Records(n, rs) =>
      SliceOk(c.g, s.pushed, n, |rs|);
      EncodedSizeOk(c.g, rs);
      RecordsArrive(c, m, n, rs, expired);
    case Beat(n) =>
      HeaderAlone(Wire.Frame(KIND_HEARTBEAT, c.session, 0, 0, n));
  }

  // ------------------------------------------------------------------ steps

  datatype Step =
    | Produce(produce: ProducerStep)
    | SenderRead(res: RawRead)
    | SenderFlush
    | SenderResync
    | SenderBeat
    | ServerStart
    | ServerRead(res: RawRead)
    | ServerFlush
    | ServerResync
    | ServerDone
    | MirrorDatagram(d: Datagram, expired: bool)
    | MirrorControl(expired: bool)
    | MirrorTimeout

  /** The datagrams a sender's frames become; what it skips it sends nothing for. */
  function Datagrams(q: seq<Answer>): set<Datagram> {
    set a | a in q && a.Data? :: Records(a.seq_, a.records)
  }

  predicate SenderMoves(s: System, s': System, r: (Gather, seq<Answer>)) {
    // A frame larger than a datagram can be is never put on the wire.
    s' == s.(sender := r.0, wire := s'.wire) && s.wire <= s'.wire <= s.wire + Datagrams(r.1)
  }

  predicate ServerMoves(s: System, s': System, r: (Gather, seq<Answer>)) {
    s.server.Serving? && s' == s.(server := s.server.(gather := r.0), tcp := s.tcp + r.1)
  }

  /** The sequences a GAP frame makes the mirror give up. */
  function GivenUp(s: System, a: Answer): map<nat, Source> {
    if a.Gap? then Snapshots(s.m.next, a.next, a.at) else map[]
  }

  /** What the sending thread does with the outcome of a read. */
  predicate SenderTakes(c: Config, s: System, s': System, res: RawRead) {
    HasRoom(c, c.mtu, s.sender) && SenderMoves(s, s', Gathered(s.src, s.sender, res))
  }

  predicate SenderReads(c: Config, s: System, s': System, res: RawRead) {
    ReadOk(s.src, s.sender.cursor + |s.sender.records|, res) && SenderTakes(c, s, s', res)
  }

  predicate SenderBeats(s: System, s': System) {
    s.sender.records == [] && s.sender.cursor >= 1 && s' == s.(wire := s.wire + {Beat(s.sender.cursor - 1)})
  }

  predicate ServerStarts(s: System, s': System)
    requires s.src.cap >= 1
  {
    && s.server.Idle? && s.served < |s.m.sent|
    && var nak := s.m.sent[s.served];
    && var (t, q) := Started(s.src, nak.from);
    && s' == s.(served := s.served + 1, tcp := s.tcp + q,
                server := Serving(nak.to, t, Max(nak.from, 1), |s.tcp|))
  }

  predicate ServerTakes(c: Config, s: System, s': System, res: RawRead) {
    && s.server.Serving? && HasRoom(c, TCP_FRAME_BYTES, s.server.gather)
    && s.server.gather.cursor + |s.server.gather.records| <= s.server.to
    && (if res.Pending? && s.server.gather.records == [] then s' == s.(server := Idle)
        else ServerMoves(s, s', Gathered(s.src, s.server.gather, res)))
  }

  predicate ServerReads(c: Config, s: System, s': System, res: RawRead) {
    && ServerTakes(c, s, s', res)
    && ReadOk(s.src, s.server.gather.cursor + |s.server.gather.records|, res)
  }

  predicate ServerEnds(s: System, s': System) {
    && s.server.Serving? && s.server.gather.records == [] && s.server.gather.resync.None?
    && s.server.gather.cursor > s.server.to && s' == s.(server := Idle)
  }

  ghost predicate DatagramArrival(c: Config, s: System, s': System, d: Datagram, expired: bool)
    requires ConfigOk(c) && Positive(s.m)
  {
    && d in s.wire && d.seq_ < 0x1_0000_0000_0000_0000
    && s' == s.(m := DatagramHandled(c.g, c.session, s.m, DatagramBytes(c, d), expired))
  }

  /** The mirror after taking frame `a` off the connection. */
  ghost function Taken(c: Config, m: State, a: Answer, expired: bool): State
    requires ConfigOk(c) && Positive(m) && Sendable(a)
  {
    ControlHandled(c.g, m, DecodeHeader(AnswerBytes(a)[..FRAME_HEADER_LEN]),
                   AnswerBytes(a)[FRAME_HEADER_LEN..], expired)
  }

  ghost predicate ControlArrival(c: Config, s: System, s': System, expired: bool)
    requires ConfigOk(c) && Positive(s.m)
  {
    && s.taken < |s.tcp| && Sendable(s.tcp[s.taken])
    && s' == s.(taken := s.taken + 1, skipped := s.skipped + GivenUp(s, s.tcp[s.taken]),
                m := Taken(c, s.m, s.tcp[s.taken], expired))
  }

  ghost predicate NextStep(c: Config, s: System, s': System, step: Step) {
    // The mirror is still running: an error would have ended it.
    && ConfigOk(c) && s.src.cap >= 1 && Positive(s.m)
    && match step
    case Produce(p) => Produces(c.g, s.src, s'.src, p) && s' == s.(src := s'.src)
    case SenderRead(res) => SenderReads(c, s, s', res)
    case SenderFlush => SenderMoves(s, s', Flush(s.sender))
    case SenderResync => s.sender.resync.Some? && SenderMoves(s, s', Resynced(s.src, s.sender))
    case SenderBeat => SenderBeats(s, s')
    case ServerStart => ServerStarts(s, s')
    case ServerRead(res) => ServerReads(c, s, s', res)
    case ServerFlush => s.server.Serving? && ServerMoves(s, s', Flush(s.server.gather))
    case ServerResync =>
      s.server.Serving? && s.server.gather.resync.Some? && ServerMoves(s, s', Resynced(s.src, s.server.gather))
    case ServerDone => ServerEnds(s, s')
    case MirrorDatagram(d, expired) => DatagramArrival(c, s, s', d, expired)
    case MirrorControl(expired) => ControlArrival(c, s, s', expired)
    case MirrorTimeout => s' == s.(m := NakRepeated(s.m))
  }

  /** The mirror has just connected: its ring is fresh or resumed at `first`, which the source
      has not run past by more than it retains or the mirror will be told so. */
  ghost predicate Init(c: Config, s: System) {
    && ConfigOk(c) && SourceOk(c.g, s.src) && GatherOk(c, s.src, s.sender)
    && (forall d :: d in s.wire ==> DatagramHonest(s.src, d))
    && s.server.Idle? && s.served == 0 && s.tcp == [] && s.taken == 0 && s.skipped == map[]
    && 1 <= s.first == s.m.next <= |s.src.pushed| + 1
    && s.m.pending == map[] && s.m.nak.None? && s.m.log == [] && s.m.sent == [] && !s.m.failed
  }

  // ------------------------------------------------------------------ invariant

  predicate SourceSide(c: Config, s: System) {
    && SourceOk(c.g, s.src) && GatherOk(c, s.src, s.sender)
    && (forall d :: d in s.wire ==> DatagramHonest(s.src, d))
    && AllHonest(s.src, s.tcp)
    && (s.server.Serving? ==> GatherOk(c, s.src, s.server.gather))
  }

  /** Where the mirror stands at least once it has taken in the frames `q`. */
  function Reached(q: seq<Answer>, pos: nat): nat
    decreases |q|
  {
    if q == [] then pos else Reached(q[1..], Max(pos, q[0].End()))
  }

  /** Each frame starts at or below the position reached by the frames before it. */
  predicate Continues(q: seq<Answer>, pos: nat)
    decreases |q|
  {
    q == [] || (q[0].Start() <= pos && Continues(q[1..], Max(pos, q[0].End())))
  }

  predicate Retransmission(s: System) {
    && s.taken <= |s.tcp| && s.served <= |s.m.sent|
    && Continues(s.tcp[s.taken..], s.m.next)
    && (forall i :: s.served <= i < |s.m.sent| ==> s.m.sent[i].from <= s.m.next)
    && (s.server.Serving? ==>
          && s.server.base <= |s.tcp|
          && Tiles(s.tcp[s.server.base..], s.server.first, s.server.gather.cursor)
          && s.server.gather.cursor <= Reached(s.tcp[s.taken..], s.m.next))
  }

  ghost predicate MirrorSide(s: System) {
    && Positive(s.m) && HolesCovered(s.m) && PendingHonest(s.src.pushed, s.m)
    && s.m.next <= |s.src.pushed| + 1
  }

  predicate Balanced(s: System) { Accounted(s.src, s.first, s.m, s.skipped) }

  ghost predicate Inv(c: Config, s: System) {
    SourceSide(c, s) && Retransmission(s) && MirrorSide(s) && Balanced(s)
  }

  // ------------------------------------------------------------------ FIFO positions

  lemma {:induction false} ReachedMonotone(q: seq<Answer>, a: nat, b: nat)
    requires a <= b
    ensures a <= Reached(q, a) <= Reached(q, b)
    ensures Continues(q, a) ==> Continues(q, b)
    decreases |q|
  {
    if q != [] { ReachedMonotone(q[1..], Max(a, q[0].End()), Max(b, q[0].End())); }
  }

  lemma {:induction false} ContinuesJoin(q: seq<Answer>, r: seq<Answer>, pos: nat, a: nat, b: nat)
    requires Continues(q, pos) && Tiles(r, a, b) && a <= Reached(q, pos)
    ensures Continues(q + r, pos) && Reached(q + r, pos) >= b && Reached(q + r, pos) >= Reached(q, pos)
    decreases |q| + |r|
  {
    if q != [] {
      assert (q + r)[1..] == q[1..] + r;
      ContinuesJoin(q[1..], r, Max(pos, q[0].End()), a, b);
    } else if r != [] {
      assert q + r == r;
      ContinuesJoin([], r[1..], Max(pos, r[0].End()), r[0].End(), b);
      assert [] + r[1..] == r[1..];
      ReachedMonotone(r[1..], pos, Max(pos, r[0].End()));
    } else {
      assert q + r == [];
    }
  }

  // ------------------------------------------------------------------ every step keeps it

  lemma InitHolds(c: Config, s: System)
    requires Init(c, s)
    ensures Inv(c, s)
  {
    assert LogSeqs([]) == {};
    assert Range(s.first, s.m.next) == {};
  }

  lemma ProduceKeeps(c: Config, s: System, s': System, p: ProducerStep)
    requires ConfigOk(c) && Inv(c, s) && Produces(c.g, s.src, s'.src, p) && s' == s.(src := s'.src)
    ensures Inv(c, s')
  {
    ProducesKeepsOk(c.g, s.src, s'.src, p);
    HonestStable(c, s.src, s'.src, s.tcp, s.sender);
    if s.server.Serving? { HonestStable(c, s.src, s'.src, s.tcp, s.server.gather); }
    forall d | d in s.wire ensures DatagramHonest(s'.src, d) {
      assert DatagramHonest(s.src, d);
      if d.Records? { SliceStable(s.src.pushed, s'.src.pushed, d.seq_, |d.records|); }
    }
    forall n | n in s.m.pending ensures ParkedHonest(s'.src.pushed, n, s.m.pending[n]) {
      assert ParkedHonest(s.src.pushed, n, s.m.pending[n]);
      SliceStable(s.src.pushed, s'.src.pushed, n, s.m.pending[n].count);
    }
    AccountStable(s.src, s'.src, s.first, s.m, s.skipped);
  }

  lemma SenderKeeps(c: Config, s: System, s': System, r: (Gather, seq<Answer>))
    requires ConfigOk(c) && Inv(c, s) && SenderMoves(s, s', r)
    requires GatherOk(c, s.src, r.0) && AllHonest(s.src, r.1)
    ensures Inv(c, s')
  {
    forall d | d in s'.wire ensures DatagramHonest(s.src, d) {
      if d !in s.wire {
        var a :| a in r.1 && a.Data? && d == Records(a.seq_, a.records);
        assert AnswerHonest(s.src, a);
      }
    }
    assert Balanced(s');
  }

  lemma BeatKeeps(c: Config, s: System, s': System)
    requires ConfigOk(c) && Inv(c, s) && s.sender.cursor >= 1
    requires s' == s.(wire := s.wire + {Beat(s.sender.cursor - 1)})
    ensures Inv(c, s')
  {
    assert Balanced(s');
  }

  lemma AnswersExtend(s: System, s': System, r: (Gather, seq<Answer>))
    requires Retransmission(s) && ServerMoves(s, s', r)
    requires Tiles(r.1, s.server.gather.cursor, r.0.cursor)
    ensures Retransmission(s')
  {
    ContinuesJoin(s.tcp[s.taken..], r.1, s.m.next, s.server.gather.cursor, r.0.cursor);
    assert s'.tcp[s.taken..] == s.tcp[s.taken..] + r.1;
    TilesJoin(s.tcp[s.server.base..], r.1, s.server.first, s.server.gather.cursor, r.0.cursor);
    assert s'.tcp[s.server.base..] == s.tcp[s.server.base..] + r.1;
  }

  lemma ServerKeeps(c: Config, s: System, s': System, r: (Gather, seq<Answer>))
    requires ConfigOk(c) && Inv(c, s) && ServerMoves(s, s', r)
    requires GatherOk(c, s.src, r.0) && AllHonest(s.src, r.1)
    requires Tiles(r.1, s.server.gather.cursor, r.0.cursor)
    ensures Inv(c, s')
  {
    AnswersExtend(s, s', r);
    assert Balanced(s');
  }

  lemma ServerStartKeeps(c: Config, s: System, s': System)
    requires ConfigOk(c) && Inv(c, s) && ServerStarts(s, s')
    ensures Inv(c, s')
  {
    var nak := s.m.sent[s.served];
    assert nak.from <= s.m.next;
    StartedOk(c, s.src, nak.from);
    var (t, q) := Started(s.src, nak.from);
    ReachedMonotone(s.tcp[s.taken..], s.m.next, s.m.next);
    ContinuesJoin(s.tcp[s.taken..], q, s.m.next, Max(nak.from, 1), t.cursor);
    assert s'.tcp[s.taken..] == s.tcp[s.taken..] + q;
    assert s'.tcp[|s.tcp|..] == q;
    assert Balanced(s');
  }

  lemma ServerStopKeeps(c: Config, s: System, s': System)
    requires Inv(c, s) && s' == s.(server := Idle)
    ensures Inv(c, s')
  {
    assert Balanced(s');
  }

  /** Whatever the mirror does, it only moves forward and asks from where it stands. */
  lemma RetransmissionKept(s: System, s': System)
    requires Retransmission(s) && s'.tcp == s.tcp && s'.taken == s.taken
    requires s'.server == s.server && s'.served == s.served
    requires s'.m.next >= s.m.next && AsksAtNext(s.m, s'.m)
    ensures Retransmission(s')
  {
    ReachedMonotone(s.tcp[s.taken..], s.m.next, s'.m.next);
  }

  lemma DatagramKeeps(c: Config, s: System, s': System, d: Datagram, expired: bool)
    requires ConfigOk(c) && Inv(c, s) && DatagramArrival(c, s, s', d, expired)
    ensures Inv(c, s')
  {
    DatagramArrives(c, s.src, s.m, d, expired);
    DatagramKeepsHolesCovered(c.g, c.session, s.m, DatagramBytes(c, d), expired);
    if d.Records? {
      AppliedHonest(c.g, s.src.pushed, s.m, d.seq_, |d.records|, expired);
    } else {
      GrownReflexive(s.src.pushed, s.m, s'.m);
    }
    RetransmissionKept(s, s');
    AccountWrites(s.src, s.first, s.m, s'.m, s.skipped);
  }

  lemma TimeoutKeeps(c: Config, s: System, s': System)
    requires ConfigOk(c) && Inv(c, s) && s' == s.(m := NakRepeated(s.m))
    ensures Inv(c, s')
  {
    TimeoutKeepsHolesCovered(s.m);
    GrownReflexive(s.src.pushed, s.m, s'.m);
    AccountWrites(s.src, s.first, s.m, s'.m, s.skipped);
  }

  /** Taking the first frame in flight off the connection. */
  lemma RetransmissionTakes(s: System, s': System)
    requires Retransmission(s) && s.taken < |s.tcp| && s'.tcp == s.tcp && s'.taken == s.taken + 1
    requires s'.server == s.server && s'.served == s.served && AsksAtNext(s.m, s'.m)
    requires s'.m.next >= Max(s.m.next, s.tcp[s.taken].End())
    ensures Retransmission(s')
  {
    var q := s.tcp[s.taken..];
    assert q[1..] == s'.tcp[s'.taken..];
    ReachedMonotone(q[1..], Max(s.m.next, q[0].End()), s'.m.next);
  }

  lemma GapHandled(g: Geometry, m: State, f: Frame, body: seq<Byte>, expired: bool)
    requires GeometryOk(g) && Positive(m) && f.kind == KIND_GAP
    ensures ControlHandled(g, m, f, body, expired)
         == if f.seq_ > m.next then Advanced(g, m.(gaps := m.gaps + 1, next := f.seq_), expired) else m
  {
  }

  function Counted(m: State, n: nat): State { m.(retransmitted := m.retransmitted + n) }

  lemma DataIsApplied(g: Geometry, m: State, f: Frame, bytes: seq<Byte>, expired: bool)
    requires GeometryOk(g) && Positive(m) && f.kind == KIND_DATA && FrameSizesOk(g, f.count, f.len)
    ensures ControlHandled(g, m, f, bytes, expired) == Applied(g, Counted(m, f.count), f.seq_, f.count, bytes, expired)
  {
  }

  /** A retransmitted frame that starts at or below the write position is written, not parked. */
  lemma DataHandledEffect(g: Geometry, pushed: seq<Record>, m: State, f: Frame, expired: bool)
    requires GeometryOk(g) && RecordsOk(g, pushed) && f.kind == KIND_DATA && FrameSizesOk(g, f.count, f.len)
    requires Positive(m) && HolesCovered(m) && PendingHonest(pushed, m)
    requires 1 <= f.seq_ <= m.next && f.seq_ - 1 + f.count <= |pushed|
    ensures var r := ControlHandled(g, m, f, EncodeRecords(Slice(pushed, f.seq_, f.count)), expired);
            && Positive(r) && HolesCovered(r) && PendingHonest(pushed, r) && Grown(pushed, m, r)
            && AsksAtNext(m, r) && r.next >= f.seq_ + f.count && r.pending.Keys <= m.pending.Keys
  {
    var bytes := EncodeRecords(Slice(pushed, f.seq_, f.count));
    var m' := Counted(m, f.count);
    DataIsApplied(g, m, f, bytes, expired);
    AppliedHonest(g, pushed, m', f.seq_, f.count, expired);
    AppliedCovers(g, m', f.seq_, f.count, bytes, expired);
  }

  lemma TakenDecodes(c: Config, s: Source, m: State, a: Answer, expired: bool)
    requires ConfigOk(c) && SourceOk(c.g, s) && AnswerHonest(s, a) && Positive(m)
    ensures Sendable(a)
    ensures Taken(c, m, a, expired) == ControlHandled(c.g, m, AnswerFrame(a), AnswerBody(a), expired)
  {
    AnswerDecodes(c, s, a);
  }

  lemma GapArrives(c: Config, s: Source, m: State, a: Answer, expired: bool)
    requires ConfigOk(c) && SourceOk(c.g, s) && AnswerHonest(s, a) && a.Gap? && Positive(m)
    ensures Taken(c, m, a, expired)
         == if a.next > m.next then Advanced(c.g, m.(gaps := m.gaps + 1, next := a.next), expired) else m
  {
    TakenDecodes(c, s, m, a, expired);
    GapHandled(c.g, m, AnswerFrame(a), AnswerBody(a), expired);
  }

  lemma DataEffect(c: Config, s: Source, m: State, a: Answer, expired: bool)
    requires ConfigOk(c) && SourceOk(c.g, s) && AnswerHonest(s, a) && a.Data?
    requires Positive(m) && HolesCovered(m) && PendingHonest(s.pushed, m) && a.seq_ <= m.next
    ensures var r := Taken(c, m, a, expired);
            && Positive(r) && HolesCovered(r) && PendingHonest(s.pushed, r) && Grown(s.pushed, m, r)
            && AsksAtNext(m, r) && r.next >= a.End() && r.pending.Keys <= m.pending.Keys
  {
    TakenDecodes(c, s, m, a, expired);
    AnswerFits(c, s, a);
    DataHandledEffect(c.g, s.pushed, m, AnswerFrame(a), expired);
  }

  lemma GapAdvances(c: Config, s: Source, m: State, n: nat, expired: bool)
    requires ConfigOk(c) && SourceOk(c.g, s) && Positive(m) && PendingHonest(s.pushed, m) && n > m.next
    ensures var m' := m.(gaps := m.gaps + 1, next := n); var r := Advanced(c.g, m', expired);
            && Positive(r) && HolesCovered(r) && PendingHonest(s.pushed, r)
            && AsksAtNext(m, r) && r.next >= n && Grown(s.pushed, m.(next := n), r)
  {
    var m' := m.(gaps := m.gaps + 1, next := n);
    AdvancedCovers(c.g, m', expired);
    AdvancedHonest(c.g, s.pushed, m', expired);
  }

  lemma GapEffect(c: Config, s: Source, m: State, a: Answer, expired: bool)
    requires ConfigOk(c) && SourceOk(c.g, s) && AnswerHonest(s, a) && a.Gap?
    requires Positive(m) && HolesCovered(m) && PendingHonest(s.pushed, m)
    ensures var r := Taken(c, m, a, expired);
            && Positive(r) && HolesCovered(r) && PendingHonest(s.pushed, r)
            && AsksAtNext(m, r) && r.next >= a.End()
            && Grown(s.pushed, m.(next := Max(m.next, a.next)), r)
  {
    GapArrives(c, s, m, a, expired);
    if a.next > m.next {
      GapAdvances(c, s, m, a.next, expired);
    } else {
      GrownReflexive(s.pushed, m, m);
    }
  }

  lemma NextInLine(c: Config, s: System)
    requires Inv(c, s) && s.taken < |s.tcp|
    ensures AnswerHonest(s.src, s.tcp[s.taken]) && s.tcp[s.taken].Start() <= s.m.next
  {
    assert s.tcp[s.taken..][0] == s.tcp[s.taken];
  }

  lemma Reassembled(c: Config, s: System, s': System)
    requires SourceSide(c, s) && s'.src == s.src && s'.sender == s.sender && s'.wire == s.wire
    requires s'.server == s.server && s'.tcp == s.tcp
    requires Retransmission(s') && MirrorSide(s') && Balanced(s')
    ensures Inv(c, s')
  {
  }

  lemma DataTaken(c: Config, s: System, s': System, expired: bool)
    requires ConfigOk(c) && Inv(c, s) && ControlArrival(c, s, s', expired) && s.tcp[s.taken].Data?
    ensures Inv(c, s')
    ensures s'.m.pending.Keys <= s.m.pending.Keys && s'.m.next >= s.tcp[s.taken].End()
  {
    NextInLine(c, s);
    DataEffect(c, s.src, s.m, s.tcp[s.taken], expired);
    RetransmissionTakes(s, s');
    assert Balanced(s') by {
      assert s'.skipped == s.skipped;
      AccountWrites(s.src, s.first, s.m, s'.m, s.skipped);
    }
    Reassembled(c, s, s');
  }

  lemma GapBalances(c: Config, s: System, s': System, a: Answer)
    requires Balanced(s) && s'.src == s.src && s'.first == s.first && a.Gap? && a.from <= s.m.next
    requires s'.skipped == s.skipped + GivenUp(s, a) && AnswerHonest(s.src, a)
    requires Grown(s.src.pushed, s.m.(next := Max(s.m.next, a.next)), s'.m)
    ensures Balanced(s')
  {
    if a.next <= s.m.next { assert GivenUp(s, a) == Snapshots(s.m.next, s.m.next, a.at); }
    AccountAdvances(s.src, s.first, s.m, s'.m, s.skipped, a.at, Max(s.m.next, a.next));
  }

  lemma GapTaken(c: Config, s: System, s': System, expired: bool)
    requires ConfigOk(c) && Inv(c, s) && ControlArrival(c, s, s', expired) && s.tcp[s.taken].Gap?
    ensures Inv(c, s')
  {
    NextInLine(c, s);
    GapEffect(c, s.src, s.m, s.tcp[s.taken], expired);
    RetransmissionTakes(s, s');
    GapBalances(c, s, s', s.tcp[s.taken]);
    Reassembled(c, s, s');
  }

  lemma SenderStepKeeps(c: Config, s: System, s': System, step: Step)
    requires Inv(c, s) && NextStep(c, s, s', step)
    requires step.SenderRead? || step.SenderFlush? || step.SenderResync? || step.SenderBeat?
    ensures Inv(c, s') && s'.tcp == s.tcp
  {
    match step
    case SenderRead(res) =>
      GatheredOk(c, s.src, s.sender, res, c.mtu);
      SenderKeeps(c, s, s', Gathered(s.src, s.sender, res));
    case SenderFlush =>
      FlushOk(c, s.src, s.sender);
      SenderKeeps(c, s, s', Flush(s.sender));
    case SenderResync =>
      ResyncedOk(c, s.src, s.sender);
      SenderKeeps(c, s, s', Resynced(s.src, s.sender));
    case SenderBeat => BeatKeeps(c, s, s');
  }

  /** The frames a step of the serving thread adds. */
  predicate Adds(s: System, s': System) {
    s.tcp <= s'.tcp && MadeNow(s.src, s'.tcp[|s.tcp|..])
  }

  lemma AddsFrames(s: System, s': System, q: seq<Answer>)
    requires s'.tcp == s.tcp + q && MadeNow(s.src, q)
    ensures Adds(s, s')
  {
    assert s'.tcp[|s.tcp|..] == q;
  }

  lemma ServerReadKeeps(c: Config, s: System, s': System, res: RawRead)
    requires ConfigOk(c) && Inv(c, s) && ServerReads(c, s, s', res)
    ensures Inv(c, s') && Adds(s, s')
  {
    if res.Pending? && s.server.gather.records == [] {
      ServerStopKeeps(c, s, s');
      AddsFrames(s, s', []);
    } else {
      GatheredOk(c, s.src, s.server.gather, res, TCP_FRAME_BYTES);
      ServerKeeps(c, s, s', Gathered(s.src, s.server.gather, res));
      AddsFrames(s, s', Gathered(s.src, s.server.gather, res).1);
    }
  }

  lemma ServerStepKeeps(c: Config, s: System, s': System, step: Step)
    requires Inv(c, s) && NextStep(c, s, s', step)
    requires step.ServerStart? || step.ServerRead? || step.ServerFlush? || step.ServerResync? || step.ServerDone?
    ensures Inv(c, s') && Adds(s, s')
  {
    match step
    case ServerStart =>
      StartedOk(c, s.src, s.m.sent[s.served].from);
      ServerStartKeeps(c, s, s');
      AddsFrames(s, s', Started(s.src, s.m.sent[s.served].from).1);
    case ServerRead(res) => ServerReadKeeps(c, s, s', res);
    case ServerFlush =>
      FlushOk(c, s.src, s.server.gather);
      ServerKeeps(c, s, s', Flush(s.server.gather));
      AddsFrames(s, s', Flush(s.server.gather).1);
    case ServerResync =>
      ResyncedOk(c, s.src, s.server.gather);
      ServerKeeps(c, s, s', Resynced(s.src, s.server.gather));
      AddsFrames(s, s', Resynced(s.src, s.server.gather).1);
    case ServerDone =>
      ServerStopKeeps(c, s, s');
      AddsFrames(s, s', []);
  }

  lemma StepKeeps(c: Config, s: System, s': System, step: Step)
    requires Inv(c, s) && NextStep(c, s, s', step)
    ensures Inv(c, s') && Adds(s, s')
  {
    if step.SenderRead? || step.SenderFlush? || step.SenderResync? || step.SenderBeat? {
      SenderStepKeeps(c, s, s', step);
      AddsFrames(s, s', []);
    } else if step.Produce? || step.MirrorDatagram? || step.MirrorControl? || step.MirrorTimeout? {
      OtherStepKeeps(c, s, s', step);
      AddsFrames(s, s', []);
    } else {
      ServerStepKeeps(c, s, s', step);
    }
  }

  lemma OtherStepKeeps(c: Config, s: System, s': System, step: Step)
    requires Inv(c, s) && NextStep(c, s, s', step)
    requires step.Produce? || step.MirrorDatagram? || step.MirrorControl? || step.MirrorTimeout?
    ensures Inv(c, s') && s'.tcp == s.tcp
  {
    match step
    case Produce(p) => ProduceKeeps(c, s, s', p);
    case MirrorDatagram(d, expired) => DatagramKeeps(c, s, s', d, expired);
    case MirrorControl(expired) =>
      if s.tcp[s.taken].Data? { DataTaken(c, s, s', expired); } else { GapTaken(c, s, s', expired); }
    case MirrorTimeout => TimeoutKeeps(c, s, s');
  }

  // ------------------------------------------------------------------ runs

  ghost predicate Steps(c: Config, s: System, s': System) { exists step :: NextStep(c, s, s', step) }

  ghost predicate StepAt(c: Config, run: seq<System>, i: nat)
    requires 0 < i < |run|
  {
    Steps(c, run[i - 1], run[i])
  }

  ghost predicate Run(c: Config, run: seq<System>) {
    && run != [] && Init(c, run[0])
    && forall i :: 0 < i < |run| ==> StepAt(c, run, i)
  }

  lemma {:induction false} RunKeeps(c: Config, run: seq<System>, i: nat)
    requires Run(c, run) && i < |run|
    ensures Inv(c, run[i])
  {
    if i == 0 {
      InitHolds(c, run[0]);
    } else {
      RunKeeps(c, run, i - 1);
      assert StepAt(c, run, i);
      var step :| NextStep(c, run[i - 1], run[i], step);
      StepKeeps(c, run[i - 1], run[i], step);
    }
  }

  /** In every run the mirror writes in strictly increasing sequence order, hence each sequence at
      most once, and what it writes under a sequence is what the source pushed under it. */
  lemma MirrorWritesTheSource(c: Config, run: seq<System>, i: nat)
    requires Run(c, run) && i < |run|
    ensures var s := run[i];
            && (forall j, k :: 0 <= j < k < |s.m.log| ==> s.m.log[j].seq_ < s.m.log[k].seq_)
            && (forall j :: 0 <= j < |s.m.log| ==>
                  1 <= s.m.log[j].seq_ <= |s.src.pushed| && s.m.log[j].record == s.src.pushed[s.m.log[j].seq_ - 1])
  {
    RunKeeps(c, run, i);
  }

  /** Every sequence between where the mirror joined and its write position was either written or
      given up, never both, and one that was given up could no longer be recovered from the
      source when the GAP covering it was sent. */
  lemma EverySequenceAccountedFor(c: Config, run: seq<System>, i: nat)
    requires Run(c, run) && i < |run|
    ensures var s := run[i];
            && (forall n :: s.first <= n < s.m.next <==> n in LogSeqs(s.m.log) || n in s.skipped)
            && (forall n :: n in s.skipped ==>
                  n !in LogSeqs(s.m.log) && Gone(s.skipped[n], n) && Evolves(s.skipped[n], s.src))
  {
    RunKeeps(c, run, i);
    var s := run[i];
    forall n ensures s.first <= n < s.m.next <==> n in LogSeqs(s.m.log) || n in s.skipped {
      assert n in Range(s.first, s.m.next) <==> n in LogSeqs(s.m.log) + s.skipped.Keys;
    }
  }

  lemma GapMadeNow(s: System, s': System, k: nat)
    requires Adds(s, s') && AllHonest(s'.src, s'.tcp) && |s.tcp| <= k < |s'.tcp| && s'.tcp[k].Gap?
    ensures var gap := s'.tcp[k]; gap.at == s.src && AllGone(gap.at, gap.from, gap.next)
  {
    assert AnswerHonest(s'.src, s'.tcp[k]);
    assert s'.tcp[k] == s'.tcp[|s.tcp|..][k - |s.tcp|];
  }

  /** A GAP put on the connection by a step records the source of that very moment, and passes
      over nothing the source still retained. */
  lemma GapsPassOnlyTheGone(c: Config, run: seq<System>, i: nat, k: nat)
    requires Run(c, run) && 0 < i < |run|
    requires |run[i - 1].tcp| <= k < |run[i].tcp| && run[i].tcp[k].Gap?
    ensures var gap := run[i].tcp[k];
            gap.at == run[i - 1].src && AllGone(gap.at, gap.from, gap.next)
  {
    RunKeeps(c, run, i - 1);
    assert StepAt(c, run, i);
    var step :| NextStep(c, run[i - 1], run[i], step);
    StepKeeps(c, run[i - 1], run[i], step);
    GapMadeNow(run[i - 1], run[i], k);
  }

  /** While a request is being answered, every sequence from its start to the cursor was sent on
      this connection or passed by a GAP, with nothing in between left out. */
  lemma AnswersLeaveNothingOut(c: Config, run: seq<System>, i: nat)
    requires Run(c, run) && i < |run| && run[i].server.Serving?
    ensures var s := run[i];
            && s.server.base <= |s.tcp|
            && Tiles(s.tcp[s.server.base..], s.server.first, s.server.gather.cursor)
            && AllHonest(s.src, s.tcp)
  {
    RunKeeps(c, run, i);
  }

  /** The frame an answer gathers does not go past the request. */
  predicate WithinRequest(s: System) {
    s.server.Serving? && s.server.gather.records != [] ==>
      s.server.gather.cursor + |s.server.gather.records| <= s.server.to + 1
  }

  lemma StepStaysWithin(c: Config, s: System, s': System, step: Step)
    requires NextStep(c, s, s', step) && WithinRequest(s)
    ensures WithinRequest(s')
  {
  }

  /** No record beyond what was asked for is sent in answer to a request. */
  lemma {:induction false} AnswersStayWithinRequests(c: Config, run: seq<System>, i: nat)
    requires Run(c, run) && i < |run|
    ensures WithinRequest(run[i])
  {
    if i > 0 {
      AnswersStayWithinRequests(c, run, i - 1);
      assert StepAt(c, run, i);
      var step :| NextStep(c, run[i - 1], run[i], step);
      StepStaysWithin(c, run[i - 1], run[i], step);
    }
  }

  /** Retransmission always continues the ring: requests in flight start at or below the write
      position, and answers in flight at or below the position reached by those before them. */
  lemma RetransmissionContinues(c: Config, run: seq<System>, i: nat)
    requires Run(c, run) && i < |run|
    ensures var s := run[i];
            && s.served <= |s.m.sent| && s.taken <= |s.tcp|
            && (forall k :: s.served <= k < |s.m.sent| ==> s.m.sent[k].from <= s.m.next)
            && Continues(s.tcp[s.taken..], s.m.next)
  {
    RunKeeps(c, run, i);
  }

  /** A retransmitted DATA frame is never parked: the write position passes its last record. */
  lemma RetransmittedDataIsNeverParked(c: Config, run: seq<System>, i: nat, expired: bool)
    requires Run(c, run) && 0 < i < |run|
    requires NextStep(c, run[i - 1], run[i], MirrorControl(expired))
    requires run[i - 1].tcp[run[i - 1].taken].Data?
    ensures run[i].m.pending.Keys <= run[i - 1].m.pending.Keys
    ensures run[i].m.next >= run[i - 1].tcp[run[i - 1].taken].End()
  {
    RunKeeps(c, run, i - 1);
    DataTaken(c, run[i - 1], run[i], expired);
  }

  /** At every step of every run: nothing the mirror holds aside lies behind its write position,
      the outstanding request covers that position, and held datagrams mean the hole in front of
      them is being asked for. The mirror never meets a protocol error. */
  lemma HolesAreAlwaysAskedFor(c: Config, run: seq<System>, i: nat)
    requires Run(c, run) && i < |run|
    ensures HolesCovered(run[i].m) && !run[i].m.failed
  {
    RunKeeps(c, run, i);
  }
}
