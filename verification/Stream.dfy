/** The serving loops of the source: a cursor walks the ring record by record and turns what it
    finds into DATA frames, and what it can no longer find into GAP frames. */
module Stream {
  import opened Basics
  import opened Wire
  import opened SourceRing
  import opened Faithful
  import opened Mirror

  const MAX_DATAGRAM := 0x1_0000

  datatype Config = Config(g: Geometry, session: U8, batch: nat, mtu: nat)

  predicate ConfigOk(c: Config) { GeometryOk(c.g) && 1 <= c.batch < 0x1_0000 && c.mtu <= MAX_DATAGRAM }

  /** A frame on a TCP connection. A GAP also remembers where the cursor stood and what the
      source looked like when it was sent. */
  datatype Answer = Data(seq_: nat, records: seq<Record>) | Gap(next: nat, from: nat, at: Source)
  {
    function Start(): nat { if Data? then seq_ else from }
    function End(): nat { if Data? then seq_ + |records| else next }
  }

  predicate AnswerHonest(s: Source, a: Answer) {
    match a
    case Data(n, rs) =>
      && 1 <= n && 1 <= |rs| < 0x1_0000 && n - 1 + |rs| <= |s.pushed|
      && rs == Slice(s.pushed, n, |rs|) && |EncodeRecords(rs)| < 0x1_0000_0000
    case Gap(n, from, at) =>
      1 <= from < n <= |s.pushed| + 1 && Evolves(at, s) && AllGone(at, from, n)
  }

  predicate AllHonest(s: Source, q: seq<Answer>) { forall i :: 0 <= i < |q| ==> AnswerHonest(s, q[i]) }

  /** The frames cover `a..b` exactly, each starting where the one before ended. */
  predicate Tiles(q: seq<Answer>, a: nat, b: nat)
    decreases |q|
  {
    if q == [] then a == b else q[0].Start() == a && a < q[0].End() && Tiles(q[1..], q[0].End(), b)
  }

  lemma {:induction false} TilesJoin(p: seq<Answer>, q: seq<Answer>, a: nat, b: nat, c: nat)
    requires Tiles(p, a, b) && Tiles(q, b, c)
    ensures Tiles(p + q, a, c)
    decreases |p|
  {
    if p == [] {
      assert p + q == q;
    } else {
      TilesJoin(p[1..], q, p[0].End(), b, c);
      assert (p + q)[1..] == p[1..] + q;
    }
  }

  /** A serving cursor: the records gathered for the frame under construction, and the newer
      sequence that showed it was lapped, once it was. */
  datatype Gather = Gather(cursor: nat, records: seq<Record>, resync: Option<nat>)

  predicate GatherOk(c: Config, s: Source, t: Gather) {
    && 1 <= t.cursor && t.cursor - 1 + |t.records| <= |s.pushed|
    && t.records == Slice(s.pushed, t.cursor, |t.records|)
    && |t.records| <= c.batch
    && |EncodeRecords(t.records)| < 0x1_0000_0000
    && (t.resync.Some? ==> t.records == [] && t.resync.value <= |s.pushed|)
  }

  /** The frame under construction takes another record. */
  predicate HasRoom(c: Config, budget: nat, t: Gather) {
    && t.resync.None? && |t.records| < c.batch
    && (t.records == [] || FRAME_HEADER_LEN + |EncodeRecords(t.records)| < budget)
  }

  function Flush(t: Gather): (Gather, seq<Answer>) {
    if t.records == [] then (t, [])
    else (Gather(t.cursor + |t.records|, [], t.resync), [Data(t.cursor, t.records)])
  }

  /** The record after the gathered ones was read with outcome `res`. */
  function Gathered(s: Source, t: Gather, res: RawRead): (Gather, seq<Answer>) {
    match res
    case Item(r) => (t.(records := t.records + [r]), [])
    case Pending => Flush(t)
    case Overwritten(seen) =>
      var (t', q) := Flush(t);
      (t'.(resync := Some(seen)), q)
    case Lost =>
      var (t', q) := Flush(t);
      (t'.(cursor := t'.cursor + 1), q + [Gap(t'.cursor + 1, t'.cursor, s)])
  }

  /** A lapped cursor moves to the oldest message still retained. */
  function Resynced(s: Source, t: Gather): (Gather, seq<Answer>)
    requires t.resync.Some? && s.cap >= 1
  {
    var r := OldestRetained(Max(s.writeSeq, t.resync.value), s.cap);
    if r > t.cursor then (Gather(r, [], None), [Gap(r, t.cursor, s)]) else (t.(resync := None), [])
  }

  /** The first thing done for a request: a GAP up to the oldest message retained. */
  function Started(s: Source, from: nat): (Gather, seq<Answer>)
    requires s.cap >= 1
  {
    var cursor := Max(from, 1);
    var oldest := OldestRetained(s.writeSeq, s.cap);
    if cursor < oldest then (Gather(oldest, [], None), [Gap(oldest, cursor, s)])
    else (Gather(cursor, [], None), [])
  }

  /** Every GAP among the frames was made in state `s`. */
  predicate MadeNow(s: Source, q: seq<Answer>) { forall i :: 0 <= i < |q| && q[i].Gap? ==> q[i].at == s }

  lemma EvolvesReflexive(s: Source)
    ensures Evolves(s, s)
  {
  }

  lemma FlushOk(c: Config, s: Source, t: Gather)
    requires ConfigOk(c) && SourceOk(c.g, s) && GatherOk(c, s, t)
    ensures var (t', q) := Flush(t);
            GatherOk(c, s, t') && t'.records == [] && t'.resync == t.resync
            && AllHonest(s, q) && Tiles(q, t.cursor, t'.cursor) && MadeNow(s, q)
            && t'.cursor == t.cursor + |t.records|
  {
    if t.records != [] {
      var (t', q) := Flush(t);
      assert t'.records == Slice(s.pushed, t'.cursor, 0);
      assert q[1..] == [];
    }
  }

  lemma GatherItem(c: Config, s: Source, t: Gather, r: Record, budget: nat)
    requires ConfigOk(c) && SourceOk(c.g, s) && GatherOk(c, s, t) && HasRoom(c, budget, t)
    requires budget <= TCP_FRAME_BYTES && ReadOk(s, t.cursor + |t.records|, Item(r))
    ensures GatherOk(c, s, t.(records := t.records + [r]))
  {
    var rs := t.records + [r];
    assert rs == Slice(s.pushed, t.cursor, |rs|);
    EncodeRecordsAppend(t.records, r);
    assert Framable(r);
    if t.records == [] { assert EncodeRecords(t.records) == []; }
  }

  /** Nothing is left to send and what was gathered before has been sent. */
  predicate Sent(t: Gather, t': Gather) { t'.records == [] && t'.cursor >= t.cursor + |t.records| }

  /** What each outcome of a read does to the cursor: a record is gathered; nothing to read, a slot
      overwritten or a blob lost sends what is gathered, and leaves the cursor there, marked for
      resynchronising, or past the lost record. */
  lemma GatheredGoesOn(s: Source, t: Gather, res: RawRead)
    requires t.resync.None?
    ensures var (t', q) := Gathered(s, t, res); var at := t.cursor + |t.records|;
            match res
            case Item(r) => q == [] && t'.cursor == t.cursor && t'.records == t.records + [r] && t'.resync.None?
            case Pending => Sent(t, t') && t'.cursor == at && t'.resync.None?
            case Overwritten(seen) => Sent(t, t') && t'.cursor == at && t'.resync == Some(seen)
            case Lost => Sent(t, t') && t'.cursor == at + 1 && t'.resync.None?
  {
  }

  /** Reading on keeps the cursor honest, and the frames it puts out are true and tile exactly
      the stretch the cursor moved over. */
  lemma GatheredOk(c: Config, s: Source, t: Gather, res: RawRead, budget: nat)
    requires ConfigOk(c) && SourceOk(c.g, s) && GatherOk(c, s, t) && HasRoom(c, budget, t)
    requires budget <= TCP_FRAME_BYTES && ReadOk(s, t.cursor + |t.records|, res)
    ensures var (t', q) := Gathered(s, t, res);
            GatherOk(c, s, t') && AllHonest(s, q) && Tiles(q, t.cursor, t'.cursor) && MadeNow(s, q)
  {
    FlushOk(c, s, t);
    var (f, p) := Flush(t);
    match res
    case Item(r) => GatherItem(c, s, t, r, budget);
    case Pending =>
    case Overwritten(_) =>
    case Lost =>
      var gap := Gap(f.cursor + 1, f.cursor, s);
      EvolvesReflexive(s);
      assert Gone(s, f.cursor);
      assert [gap][1..] == [];
      TilesJoin(p, [gap], t.cursor, f.cursor, f.cursor + 1);
      assert f.(cursor := f.cursor + 1).records == Slice(s.pushed, f.cursor + 1, 0);
  }

  /** `b` is `a`, or the oldest message retained behind `newest` if that is later. */
  predicate AtOldest(s: Source, newest: nat, a: nat, b: nat) {
    newest < b + s.cap && (b == a || (b > a && (b == 1 || newest == b - 1 + s.cap)))
  }

  lemma ResyncedOk(c: Config, s: Source, t: Gather)
    requires ConfigOk(c) && SourceOk(c.g, s) && GatherOk(c, s, t) && t.resync.Some?
    ensures var (t', q) := Resynced(s, t);
            GatherOk(c, s, t') && AllHonest(s, q) && Tiles(q, t.cursor, t'.cursor) && MadeNow(s, q)
            && t'.resync.None? && AtOldest(s, Max(s.writeSeq, t.resync.value), t.cursor, t'.cursor)
  {
    ResyncSkipsOnlyGone(c.g, s, t.cursor, t.resync.value);
    var (t', q) := Resynced(s, t);
    EvolvesReflexive(s);
    assert t'.records == Slice(s.pushed, t'.cursor, 0);
    if q != [] { assert q[1..] == []; }
  }

  lemma StartedOk(c: Config, s: Source, from: nat)
    requires ConfigOk(c) && SourceOk(c.g, s) && from <= |s.pushed| + 1
    ensures var (t, q) := Started(s, from);
            GatherOk(c, s, t) && AllHonest(s, q) && Tiles(q, Max(from, 1), t.cursor) && MadeNow(s, q)
            && t.resync.None? && AtOldest(s, s.writeSeq, Max(from, 1), t.cursor)
  {
    ResyncSkipsOnlyGone(c.g, s, Max(from, 1), 0);
    var (t, q) := Started(s, from);
    EvolvesReflexive(s);
    assert t.records == Slice(s.pushed, t.cursor, 0);
    assert EncodeRecords([]) == [];
    if q != [] { assert q[1..] == []; }
  }

  lemma SliceStable(p: seq<Record>, p': seq<Record>, s: nat, n: nat)
    requires p <= p' && 1 <= s && s - 1 + n <= |p|
    ensures Slice(p, s, n) == Slice(p', s, n)
  {
  }

  /** Frames and cursors stay honest while the source moves on. */
  lemma HonestStable(c: Config, s: Source, s': Source, q: seq<Answer>, t: Gather)
    requires Evolves(s, s') && AllHonest(s, q) && GatherOk(c, s, t)
    ensures AllHonest(s', q) && GatherOk(c, s', t)
  {
    SliceStable(s.pushed, s'.pushed, t.cursor, |t.records|);
    forall i | 0 <= i < |q| ensures AnswerHonest(s', q[i]) {
      assert AnswerHonest(s, q[i]);
      if q[i].Data? { SliceStable(s.pushed, s'.pushed, q[i].seq_, |q[i].records|); }
    }
  }

  // ------------------------------------------------------------------ frames as bytes

  predicate Sendable(a: Answer) { (if a.Data? then a.seq_ else a.next) < 0x1_0000_0000_0000_0000 }

  function AnswerBytes(a: Answer): (b: seq<Byte>)
    requires Sendable(a)
    ensures |b| >= FRAME_HEADER_LEN
  {
    match a
    case Data(n, rs) => DataFrame(0, n, rs)
    case Gap(n, _, _) => EncodeHeader(Wire.Frame(KIND_GAP, 0, 0, 0, n))
  }

  function AnswerFrame(a: Answer): Frame
    requires Sendable(a) && (a.Data? ==> |a.records| < 0x1_0000 && |EncodeRecords(a.records)| < 0x1_0000_0000)
  {
    match a
    case Data(n, rs) => Wire.Frame(KIND_DATA, 0, |rs|, |EncodeRecords(rs)|, n)
    case Gap(n, _, _) => Wire.Frame(KIND_GAP, 0, 0, 0, n)
  }

  function AnswerBody(a: Answer): seq<Byte> { if a.Data? then EncodeRecords(a.records) else [] }

  lemma SliceOk(g: Geometry, pushed: seq<Record>, s: nat, n: nat)
    requires GeometryOk(g) && RecordsOk(g, pushed) && 1 <= s && s - 1 + n <= |pushed|
    ensures RecordsOk(g, Slice(pushed, s, n))
  {
  }

  /** The bytes of an honest frame decode to it. */
  lemma AnswerDecodes(c: Config, s: Source, a: Answer)
    requires ConfigOk(c) && SourceOk(c.g, s) && AnswerHonest(s, a)
    ensures Sendable(a)
    ensures DecodeHeader(AnswerBytes(a)[..FRAME_HEADER_LEN]) == AnswerFrame(a)
    ensures AnswerBytes(a)[FRAME_HEADER_LEN..] == AnswerBody(a)
  {
    match a
    case Data(n, rs) =>
      DataFrameDecodes(0, n, rs);
    case Gap(n, _, _) => HeaderAlone(Wire.Frame(KIND_GAP, 0, 0, 0, n));
  }

  lemma AnswerFits(c: Config, s: Source, a: Answer)
    requires ConfigOk(c) && SourceOk(c.g, s) && AnswerHonest(s, a) && a.Data?
    ensures Sendable(a) && FrameSizesOk(c.g, |a.records|, |EncodeRecords(a.records)|)
  {
    SliceOk(c.g, s.pushed, a.seq_, |a.records|);
    EncodedSizeOk(c.g, a.records);
  }
}
