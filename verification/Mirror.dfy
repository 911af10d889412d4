/** The receiving side of replication: the mirror ring's write position, the datagrams parked
    ahead of a hole, and the outstanding retransmission request. The functions say what each
    operation does to the mirror's state; the class runs the same operations in place. */
module Mirror {
  import opened Basics
  import opened Wire

  const NAK_MAX := 65535
  const PENDING_MAX := 8192
  const KIND_GAP: U8 := 4
  const KIND_HEARTBEAT: U8 := 5
  const KIND_MULTICAST: U8 := 7

  /** A retransmission request for the sequences `from..=to`. */
  datatype Nak = Nak(from: nat, to: nat)

  /** A datagram kept aside: its record count and its DATA payload. */
  datatype Parked = Parked(count: nat, bytes: seq<Byte>)

  datatype Written = Written(seq_: nat, record: Record)

  /** `log` lists every record written into the mirror ring, `sent` every NAK put on the TCP
      stream; `restarts` counts the rings started over, `failed` is set once an operation
      has returned an error. */
  datatype State = State(
    next: nat, published: nat, pending: map<nat, Parked>, nak: Option<Nak>,
    gaps: nat, sourceSeq: nat, retransmitted: nat, restarts: nat, failed: bool,
    log: seq<Written>, sent: seq<Nak>)

  // ------------------------------------------------------------------ what the operations do

  function Fail(m: State): State { m.(failed := true) }

  function NakSent(m: State, from: nat, to: nat): State {
    m.(nak := Some(Nak(from, to)), sent := m.sent + [Nak(from, to)])
  }

  /** One request at a time: an unexpired one that starts here and reaches far enough stands.
      `expired` says whether the outstanding request has timed out. */
  function Requested(m: State, from: nat, to: nat, expired: bool): State
    requires from >= 1
  {
    var to' := Min(to, from + NAK_MAX - 1);
    if m.nak.Some? && m.nak.value.from == from && m.nak.value.to >= to' && !expired then m
    else NakSent(m, from, to')
  }

  function Append(m: State, s: nat, r: Record): State {
    m.(next := s + 1, log := m.log + [Written(s, r)])
  }

  /** Walks the records of a DATA payload from sequence `s`, writing those at or above
      `floor`. An error leaves what was already written in place. */
  function AllWritten(g: Geometry, m: State, floor: nat, s: nat, count: nat, bytes: seq<Byte>): (w: State)
    requires GeometryOk(g)
    ensures w.pending == m.pending
    decreases count
  {
    if count == 0 then (if bytes == [] then m else Fail(m))
    else if g.payloadLen > |bytes| then Fail(m)
    else
      var descriptor, rest := bytes[..g.payloadLen], bytes[g.payloadLen..];
      var len := if g.hasArena then BlobLen(descriptor) else 0;
      if len > |rest| then Fail(m)
      else if s >= floor && len > g.arenaSize && g.hasArena then Fail(m)
      else
        var m' := if s >= floor then Append(m, s, Record(descriptor, rest[..len])) else m;
        AllWritten(g, m', floor, s + 1, count - 1, rest[len..])
  }

  function RecordsWritten(g: Geometry, m: State, s: nat, count: nat, bytes: seq<Byte>): (w: State)
    requires GeometryOk(g) && !m.failed && m.next >= 1 && count >= 1
    ensures w.pending == m.pending
  {
    var w := AllWritten(g, m, m.next, s, count, bytes);
    if w.failed || w.next == 0 then w
    else w.(published := w.next - 1, sourceSeq := Max(w.sourceSeq, s + count - 1))
  }

  lemma {:induction false} HasMinimum(s: set<nat>, a: nat)
    requires a in s
    ensures exists k :: k in s && forall j :: j in s ==> k <= j
    decreases a
  {
    if j :| j in s && j < a { HasMinimum(s, j); }
  }

  ghost function FirstKey(s: set<nat>): (k: nat)
    requires s != {}
    ensures k in s && forall j :: j in s ==> k <= j
  {
    var a :| a in s;
    HasMinimum(s, a);
    var k :| k in s && forall j :: j in s ==> k <= j;
    k
  }

  function DropSatisfied(m: State): State {
    if m.nak.Some? && m.next > m.nak.value.to then m.(nak := None) else m
  }

  /** One look at the first parked datagram, and whether the advance ends there. */
  ghost function Round(g: Geometry, m: State, expired: bool): (r: (State, bool))
    requires GeometryOk(g) && !m.failed
    ensures r.1 || (!r.0.failed && |r.0.pending| < |m.pending|)
  {
    var m1 := DropSatisfied(m);
    if m1.pending.Keys == {} || m1.next == 0 then (m1, true)
    else
      var s := FirstKey(m1.pending.Keys);
      var parked := m1.pending[s];
      var m2 := m1.(pending := m1.pending - {s});
      assert |m2.pending.Keys| < |m1.pending.Keys| by { assert m2.pending.Keys == m1.pending.Keys - {s}; }
      if s + parked.count <= m2.next then (m2, false)
      else if s > m2.next then (Requested(m1, m1.next, s - 1, expired), true)
      else
        var w := RecordsWritten(g, m2, s, parked.count, parked.bytes);
        (w, w.failed)
  }

  /** After the write position moved: forget a satisfied request, write parked datagrams that
      now continue the ring, and ask for the next hole. */
  ghost function Advanced(g: Geometry, m: State, expired: bool): State
    requires GeometryOk(g) && !m.failed
    decreases |m.pending|
  {
    var r := Round(g, m, expired);
    if r.1 then r.0 else Advanced(g, r.0, expired)
  }

  function Park(m: State, s: nat, count: nat, bytes: seq<Byte>): State {
    if |m.pending| < PENDING_MAX && s !in m.pending
    then m.(pending := m.pending[s := Parked(count, bytes)]) else m
  }

  /** Records `s..s+count`: old ones are ignored, early ones parked, the rest written. */
  ghost function Applied(g: Geometry, m: State, s: nat, count: nat, bytes: seq<Byte>, expired: bool): State
    requires GeometryOk(g) && !m.failed && m.next >= 1
  {
    if s + count <= m.next then m
    else if s > m.next then Requested(Park(m, s, count, bytes), m.next, s - 1, expired)
    else
      var w := RecordsWritten(g, m, s, count, bytes);
      if w.failed then w else Advanced(g, w, expired)
  }

  function SourceSeqSeen(m: State, s: nat, expired: bool): State
    requires m.next >= 1
  {
    var m1 := m.(sourceSeq := Max(m.sourceSeq, s));
    if s >= m1.next then Requested(m1, m1.next, s, expired) else m1
  }

  /** A frame from the TCP connection of a UDP mirror; `body` is the DATA payload. */
  ghost function ControlHandled(g: Geometry, m: State, f: Frame, body: seq<Byte>, expired: bool): State
    requires GeometryOk(g) && !m.failed && m.next >= 1
  {
    if f.kind == KIND_DATA then
      if !FrameSizesOk(g, f.count, f.len) then Fail(m)
      else Applied(g, m.(retransmitted := m.retransmitted + f.count), f.seq_, f.count, body, expired)
    else if f.kind == KIND_GAP then
      if f.seq_ > m.next then Advanced(g, m.(gaps := m.gaps + 1, next := f.seq_), expired) else m
    else if f.kind == KIND_HEARTBEAT then SourceSeqSeen(m, f.seq_, expired)
    else if f.kind == KIND_MULTICAST then m
    else Fail(m)
  }

  /** A datagram; foreign, short or ill-sized ones are ignored. */
  ghost function DatagramHandled(g: Geometry, session: U8, m: State, dgram: seq<Byte>, expired: bool): State
    requires GeometryOk(g) && !m.failed && m.next >= 1
  {
    if |dgram| < FRAME_HEADER_LEN then m
    else
      var f := DecodeHeader(dgram[..FRAME_HEADER_LEN]);
      if f.flags != session then m
      else if f.kind == KIND_DATA then
        if !FrameSizesOk(g, f.count, f.len) || |dgram| < FRAME_HEADER_LEN + f.len then m
        else Applied(g, m, f.seq_, f.count, dgram[FRAME_HEADER_LEN..FRAME_HEADER_LEN + f.len], expired)
      else if f.kind == KIND_HEARTBEAT then SourceSeqSeen(m, f.seq_, expired)
      else m
  }

  /** A request that went unanswered for the timeout is repeated as it was. */
  function NakRepeated(m: State): State {
    if m.nak.Some? then NakSent(m, m.nak.value.from, m.nak.value.to) else m
  }

  /** A DATA frame on a TCP-only mirror that does not continue the ring: behind it, the source
      must have restarted its numbering and a fresh ring is begun; ahead of it, the hole is
      left. */
  function JumpedTo(m: State, s: nat): State {
    if s < m.next then
      m.(next := Max(1, s), published := 0, log := [], gaps := m.gaps + 1, restarts := m.restarts + 1)
    else if s > m.next then m.(gaps := m.gaps + 1, next := s)
    else m
  }

  /** A frame from the connection of a TCP-only mirror. */
  function TcpHandled(g: Geometry, m: State, f: Frame, body: seq<Byte>): State
    requires GeometryOk(g) && !m.failed && m.next >= 1
  {
    if f.kind == KIND_DATA then
      if !FrameSizesOk(g, f.count, f.len) then Fail(m)
      else RecordsWritten(g, JumpedTo(m, f.seq_), f.seq_, f.count, body)
    else if f.kind == KIND_GAP then
      if f.seq_ > m.next then m.(gaps := m.gaps + 1, next := f.seq_) else m
    else if f.kind == KIND_HEARTBEAT then m.(sourceSeq := Max(m.sourceSeq, f.seq_))
    else Fail(m)
  }

  // ------------------------------------------------------------------ hole coverage

  /** Parked datagrams all lie ahead of the write position, an outstanding request covers it,
      and a parked datagram means the hole in front of it is being asked for. */
  ghost predicate HolesCovered(m: State) {
    && (forall k :: k in m.pending ==> k > m.next)
    && (m.nak.Some? ==> m.nak.value.from <= m.next <= m.nak.value.to)
    && (m.pending.Keys != {} ==> m.nak.Some? && m.nak.value.from == m.next)
  }

  predicate Positive(m: State) {
    && !m.failed && m.next >= 1
    && (m.nak.Some? ==> m.nak.value.from <= m.next)
  }

  /** New requests start at the write position the operation ends with. */
  predicate AsksAtNext(m: State, m': State) {
    m'.sent == m.sent || (m'.sent != [] && m'.sent == m.sent + [Nak(m'.next, m'.sent[|m'.sent| - 1].to)])
  }

  lemma RequestCovers(m: State, to: nat, expired: bool)
    requires Positive(m) && to >= m.next
    requires forall k :: k in m.pending ==> k > m.next
    ensures var r := Requested(m, m.next, to, expired);
            && HolesCovered(r) && Positive(r) && AsksAtNext(m, r)
            && r == m.(nak := r.nak, sent := r.sent)
  {
  }

  lemma {:induction false} AllWrittenFrame(g: Geometry, m: State, floor: nat, s: nat, count: nat, bytes: seq<Byte>)
    requires GeometryOk(g) && m.next >= 1 && m.next == Max(floor, s)
    ensures var w := AllWritten(g, m, floor, s, count, bytes);
            && w.nak == m.nak && w.sent == m.sent && w.next >= m.next
            && (!w.failed ==> !m.failed && w.next == Max(floor, s + count))
    decreases count
  {
    if count > 0 && g.payloadLen <= |bytes| {
      var descriptor, rest := bytes[..g.payloadLen], bytes[g.payloadLen..];
      var len := if g.hasArena then BlobLen(descriptor) else 0;
      if len <= |rest| && !(s >= floor && len > g.arenaSize && g.hasArena) {
        var m' := if s >= floor then Append(m, s, Record(descriptor, rest[..len])) else m;
        AllWrittenFrame(g, m', floor, s + 1, count - 1, rest[len..]);
      }
    }
  }

  lemma RecordsWrittenFrame(g: Geometry, m: State, s: nat, count: nat, bytes: seq<Byte>)
    requires GeometryOk(g) && Positive(m) && count >= 1 && s <= m.next
    ensures var w := RecordsWritten(g, m, s, count, bytes);
            && w.nak == m.nak && w.sent == m.sent && w.next >= m.next
            && (!w.failed ==> Positive(w) && w.next == Max(m.next, s + count))
  {
    AllWrittenFrame(g, m, m.next, s, count, bytes);
  }

  lemma RoundCovers(g: Geometry, m: State, expired: bool)
    requires GeometryOk(g) && Positive(m)
    ensures var r := Round(g, m, expired);
            !r.0.failed ==> && Positive(r.0) && r.0.next >= m.next && AsksAtNext(m, r.0)
                            && r.0.pending.Keys <= m.pending.Keys
                            && (if r.1 then HolesCovered(r.0) else r.0.sent == m.sent)
  {
    var m1 := DropSatisfied(m);
    if m1.pending.Keys != {} {
      var s := FirstKey(m1.pending.Keys);
      var parked := m1.pending[s];
      var m2 := m1.(pending := m1.pending - {s});
      if s + parked.count <= m2.next {
      } else if s > m2.next {
        RequestCovers(m1, s - 1, expired);
      } else {
        RecordsWrittenFrame(g, m2, s, parked.count, parked.bytes);
      }
    }
  }

  /** Whatever bytes arrive, an advance that does not fail ends with every hole covered. */
  lemma {:induction false} AdvancedCovers(g: Geometry, m: State, expired: bool)
    requires GeometryOk(g) && Positive(m)
    ensures var r := Advanced(g, m, expired);
            !r.failed ==> && HolesCovered(r) && Positive(r) && r.next >= m.next
                          && AsksAtNext(m, r) && r.pending.Keys <= m.pending.Keys
    decreases |m.pending|
  {
    RoundCovers(g, m, expired);
    var r := Round(g, m, expired);
    if !r.1 { AdvancedCovers(g, r.0, expired); }
  }

  lemma AppliedCovers(g: Geometry, m: State, s: nat, count: nat, bytes: seq<Byte>, expired: bool)
    requires GeometryOk(g) && Positive(m) && HolesCovered(m)
    ensures var r := Applied(g, m, s, count, bytes, expired);
            !r.failed ==> && HolesCovered(r) && Positive(r) && r.next >= m.next && AsksAtNext(m, r)
                          && (s <= m.next ==> r.pending.Keys <= m.pending.Keys && r.next >= s + count)
  {
    if s + count > m.next {
      if s > m.next {
        var p := Park(m, s, count, bytes);
        RequestCovers(p, s - 1, expired);
      } else {
        RecordsWrittenFrame(g, m, s, count, bytes);
        var w := RecordsWritten(g, m, s, count, bytes);
        if !w.failed { AdvancedCovers(g, w, expired); }
      }
    }
  }

  /** What every operation that does not fail keeps. */
  ghost predicate Keeps(m: State, r: State) {
    !r.failed ==> HolesCovered(r) && Positive(r) && r.next >= m.next && AsksAtNext(m, r)
  }

  lemma SourceSeqCovers(m: State, s: nat, expired: bool)
    requires Positive(m) && HolesCovered(m)
    ensures Keeps(m, SourceSeqSeen(m, s, expired))
  {
    if s >= m.next { RequestCovers(m.(sourceSeq := Max(m.sourceSeq, s)), s, expired); }
  }

  lemma GapCovers(g: Geometry, m: State, s: nat, expired: bool)
    requires GeometryOk(g) && Positive(m) && HolesCovered(m) && s > m.next
    ensures Keeps(m, Advanced(g, m.(gaps := m.gaps + 1, next := s), expired))
  {
    AdvancedCovers(g, m.(gaps := m.gaps + 1, next := s), expired);
  }

  /** Hole coverage is kept by every datagram, whatever it contains. */
  lemma DatagramKeepsHolesCovered(g: Geometry, session: U8, m: State, dgram: seq<Byte>, expired: bool)
    requires GeometryOk(g) && Positive(m) && HolesCovered(m)
    ensures Keeps(m, DatagramHandled(g, session, m, dgram, expired))
  {
    if |dgram| >= FRAME_HEADER_LEN {
      var f := DecodeHeader(dgram[..FRAME_HEADER_LEN]);
      if f.kind == KIND_DATA && f.flags == session && |dgram| >= FRAME_HEADER_LEN + f.len {
        AppliedCovers(g, m, f.seq_, f.count, dgram[FRAME_HEADER_LEN..FRAME_HEADER_LEN + f.len], expired);
      } else if f.kind == KIND_HEARTBEAT {
        SourceSeqCovers(m, f.seq_, expired);
      }
    }
  }

  lemma DataFrameCovers(g: Geometry, m: State, f: Frame, body: seq<Byte>, expired: bool)
    requires GeometryOk(g) && Positive(m) && HolesCovered(m) && f.kind == KIND_DATA
    ensures Keeps(m, ControlHandled(g, m, f, body, expired))
  {
    AppliedCovers(g, m.(retransmitted := m.retransmitted + f.count), f.seq_, f.count, body, expired);
  }

  lemma GapFrameCovers(g: Geometry, m: State, f: Frame, body: seq<Byte>, expired: bool)
    requires GeometryOk(g) && Positive(m) && HolesCovered(m) && f.kind == KIND_GAP
    ensures Keeps(m, ControlHandled(g, m, f, body, expired))
  {
    if f.seq_ > m.next { GapCovers(g, m, f.seq_, expired); }
  }

  lemma HeartbeatFrameCovers(g: Geometry, m: State, f: Frame, body: seq<Byte>, expired: bool)
    requires GeometryOk(g) && Positive(m) && HolesCovered(m) && f.kind == KIND_HEARTBEAT
    ensures Keeps(m, ControlHandled(g, m, f, body, expired))
  {
    SourceSeqCovers(m, f.seq_, expired);
  }

  /** Hole coverage is kept by every control frame, whatever it contains. */
  lemma ControlKeepsHolesCovered(g: Geometry, m: State, f: Frame, body: seq<Byte>, expired: bool)
    requires GeometryOk(g) && Positive(m) && HolesCovered(m)
    ensures Keeps(m, ControlHandled(g, m, f, body, expired))
  {
    if f.kind == KIND_DATA { DataFrameCovers(g, m, f, body, expired); }
    else if f.kind == KIND_GAP { GapFrameCovers(g, m, f, body, expired); }
    else if f.kind == KIND_HEARTBEAT { HeartbeatFrameCovers(g, m, f, body, expired); }
  }

  lemma TimeoutKeepsHolesCovered(m: State)
    requires Positive(m) && HolesCovered(m)
    ensures HolesCovered(NakRepeated(m)) && Positive(NakRepeated(m))
  {
  }

  // ------------------------------------------------------------------ relocating blobs

  /** The descriptor with the blob reference at its end replaced. */
  function PutBlobRef(descriptor: seq<Byte>, offset: nat, len: nat, flags: nat): (d: seq<Byte>)
    requires |descriptor| >= BLOB_REF_LEN
    ensures |d| == |descriptor|
  {
    descriptor[..|descriptor| - BLOB_REF_LEN] + RefBytes(offset, len, flags)
  }

  /** What the mirror stores for an arena record whose blob was placed at `offset`. An empty
      blob is never placed: the arena answers with the all-zero reference. */
  function Relocated(r: Record, offset: U64): seq<Byte>
    requires |r.descriptor| >= BLOB_REF_LEN
  {
    if r.blob == [] then PutBlobRef(r.descriptor, 0, 0, 0)
    else PutBlobRef(r.descriptor, offset, |r.blob|, BlobFlags(r.descriptor))
  }

  /** A mirrored blob keeps its metadata and its length wherever it is placed, and it keeps its
      flags exactly when it is not an empty blob with flags set. */
  lemma RelocationKeeps(g: Geometry, r: Record, offset: U64)
    requires GeometryOk(g) && g.hasArena && RecordOk(g, r) && |r.blob| < 0x1_0000_0000
    ensures var d := Relocated(r, offset);
            && |d| == |r.descriptor|
            && d[..|d| - BLOB_REF_LEN] == r.descriptor[..|d| - BLOB_REF_LEN]
            && BlobLen(d) == |r.blob| && BlobOffset(d) == (if r.blob == [] then 0 else offset)
            && (BlobFlags(d) == BlobFlags(r.descriptor) <==> (r.blob != [] || BlobFlags(r.descriptor) == 0))
  {
    WordWidths();
    LeValueBound(r.descriptor[|r.descriptor| - 4..]);
    var meta := r.descriptor[..|r.descriptor| - BLOB_REF_LEN];
    if r.blob == [] { RefReadsBack(meta, 0, 0, 0); }
    else { RefReadsBack(meta, offset, |r.blob|, BlobFlags(r.descriptor)); }
  }

  // ------------------------------------------------------------------ the mirror in place

  class Mirror {
    const g: Geometry
    const session: U8
    var next: nat
    var published: nat
    var pending: map<nat, Parked>
    var nak: Option<Nak>
    var gaps: nat
    var sourceSeq: nat
    var retransmitted: nat
    var restarts: nat
    var failed: bool
    ghost var log: seq<Written>
    ghost var sent: seq<Nak>

    ghost function Abs(): State
      reads this
    {
      State(next, published, pending, nak, gaps, sourceSeq, retransmitted, restarts, failed, log, sent)
    }

    ghost predicate Valid()
      reads this
    {
      GeometryOk(g) && Positive(Abs()) && HolesCovered(Abs())
    }

    /** A mirror that was told the first sequence `first`: an existing ring is continued at its own
        position, a fresh one starts at 1 and skips ahead. */
    constructor (g: Geometry, session: U8, first: nat, resumed: Option<nat>)
      requires GeometryOk(g) && (resumed.Some? ==> resumed.value >= 1)
      ensures this.g == g && this.session == session && Valid()
      ensures next == (if resumed.Some? then resumed.value else Max(1, first))
      ensures sourceSeq == (if first == 0 then 0 else first - 1)
      ensures pending == map[] && nak == None && log == [] && sent == [] && gaps == 0 && retransmitted == 0 && restarts == 0
    {
      this.g, this.session := g, session;
      this.next := if resumed.Some? then resumed.value else if first > 1 then first else 1;
      published, pending, nak := 0, map[], None;
      gaps, sourceSeq, retransmitted := 0, if first == 0 then 0 else first - 1, 0;
      restarts, failed := 0, false;
      log, sent := [], [];
    }

    method SendNak(from: nat, to: nat)
      modifies this`nak, this`sent
      ensures Abs() == NakSent(old(Abs()), from, to)
    {
      nak := Some(Nak(from, to));
      sent := sent + [Nak(from, to)];
    }

    /** Unless an unexpired request for at least as much stands, one is sent: for everything up to
        `to`, or for as much as one request may name. */
    method Request(from: nat, to: nat, expired: bool)
      requires from >= 1
      modifies this`nak, this`sent
      ensures Abs() == Requested(old(Abs()), from, to, expired)
      ensures nak.Some? && nak.value.from == from && (nak.value.to >= to || nak.value.to - from + 1 >= NAK_MAX)
      ensures sent == old(sent) <==> old(nak) == nak && !expired
      ensures sent != old(sent) ==> sent == old(sent) + [nak.value] && nak.value.to == Min(to, from + NAK_MAX - 1)
    {
      var to' := Min(to, from + NAK_MAX - 1);
      if nak.Some? && nak.value.from == from && nak.value.to >= to' && !expired { return; }
      SendNak(from, to');
    }

    /** Cuts the record that starts at `pos`; `ok` is false when the payload is too short. */
    method CutRecord(bytes: seq<Byte>, pos: nat) returns (ok: bool, r: Record, end: nat)
      requires GeometryOk(g) && pos <= |bytes|
      ensures ok == (g.payloadLen <= |bytes| - pos
                     && (g.hasArena ==> BlobLen(bytes[pos..][..g.payloadLen]) <= |bytes| - pos - g.payloadLen))
      ensures ok ==> && pos <= end <= |bytes| && r.descriptor == bytes[pos..][..g.payloadLen]
                     && |r.blob| == (if g.hasArena then BlobLen(r.descriptor) else 0)
                     && |r.blob| <= |bytes[pos..][g.payloadLen..]|
                     && r.blob == bytes[pos..][g.payloadLen..][..|r.blob|]
                     && bytes[end..] == bytes[pos..][g.payloadLen..][|r.blob|..]
    {
      ok, r, end := false, Record([], []), pos;
      if pos + g.payloadLen > |bytes| { return; }
      var descriptor := bytes[pos..pos + g.payloadLen];
      assert bytes[pos..][..g.payloadLen] == descriptor;
      var start, len := pos + g.payloadLen, 0;
      if g.hasArena {
        len := BlobLen(descriptor);
        if start + len > |bytes| { return; }
      }
      ok, r, end := true, Record(descriptor, bytes[start..start + len]), start + len;
    }

    method WriteRecords(s: nat, count: nat, bytes: seq<Byte>) returns (ok: bool)
      requires GeometryOk(g) && !failed && next >= 1 && count >= 1
      modifies this
      ensures Abs() == RecordsWritten(g, old(Abs()), s, count, bytes) && ok == !failed
    {
      var floor, pos := next, 0;
      assert bytes[pos..] == bytes;
      for i := 0 to count
        invariant 0 <= pos <= |bytes| && !failed && next >= 1
        invariant AllWritten(g, Abs(), floor, s + i, count - i, bytes[pos..])
               == AllWritten(g, old(Abs()), floor, s, count, bytes)
      {
        var cut, r, end := CutRecord(bytes, pos);
        if !cut {
          failed := true;
          return false;
        }
        if s + i >= floor {
          if g.hasArena && |r.blob| > g.arenaSize {
            failed := true;
            return false;
          }
          next, log := s + i + 1, log + [Written(s + i, r)];
        }
        pos := end;
      }
      if pos != |bytes| {
        failed := true;
        return false;
      }
      published := next - 1;
      sourceSeq := Max(sourceSeq, s + count - 1);
      ok := true;
    }

    /** The lowest parked sequence. */
    method FirstParked() returns (s: Option<nat>)
      ensures s.None? <==> pending.Keys == {}
      ensures s.Some? ==> s.value == FirstKey(pending.Keys)
    {
      if pending.Keys == {} { return None; }
      var a :| a in pending.Keys;
      HasMinimum(pending.Keys, a);
      var k :| k in pending.Keys && forall j :: j in pending.Keys ==> k <= j;
      return Some(k);
    }

    method TakeParked(expired: bool) returns (done: bool)
      requires GeometryOk(g) && !failed && next >= 1
      modifies this
      ensures (Abs(), done) == Round(g, old(Abs()), expired)
    {
      if nak.Some? && next > nak.value.to { nak := None; }
      ghost var m1 := Abs();
      assert m1 == DropSatisfied(old(Abs()));
      var s := FirstParked();
      if s.None? { return true; }
      var parked := pending[s.value];
      pending := pending - {s.value};
      if s.value + parked.count <= next { return false; }
      if s.value > next {
        pending := pending[s.value := parked];
        assert pending == m1.pending;
        Request(next, s.value - 1, expired);
        return true;
      }
      var ok := WriteRecords(s.value, parked.count, parked.bytes);
      return !ok;
    }

    method AfterAdvance(expired: bool) returns (ok: bool)
      requires GeometryOk(g) && Positive(Abs())
      modifies this
      ensures Abs() == Advanced(g, old(Abs()), expired) && ok == !failed
    {
      var done := false;
      while !done
        invariant GeometryOk(g)
        invariant !done ==> Positive(Abs()) && Advanced(g, Abs(), expired) == Advanced(g, old(Abs()), expired)
        invariant done ==> Abs() == Advanced(g, old(Abs()), expired)
        decreases !done, |pending|
      {
        RoundCovers(g, Abs(), expired);
        done := TakeParked(expired);
      }
      ok := !failed;
    }

    /** Records already written are ignored, early ones are kept as they came, while there is room,
        and the hole in front of them is asked for. */
    method Apply(s: nat, count: nat, bytes: seq<Byte>, expired: bool) returns (ok: bool)
      requires Valid()
      modifies this
      ensures Abs() == Applied(g, old(Abs()), s, count, bytes, expired) && ok == !failed
      ensures ok ==> Valid()
      ensures s + count <= old(next) ==> Abs() == old(Abs())
      ensures s > old(next) ==>
                && ok && next == old(next) && log == old(log) && nak.Some? && nak.value.from == next
                && pending == if s in old(pending) || |old(pending)| >= PENDING_MAX then old(pending)
                              else old(pending)[s := Parked(count, bytes)]
      ensures ok && s <= old(next) ==> next >= s + count
    {
      AppliedCovers(g, Abs(), s, count, bytes, expired);
      if s + count <= next { return true; }
      if s > next {
        if |pending| < PENDING_MAX && s !in pending {
          pending := pending[s := Parked(count, bytes)];
        }
        Request(next, s - 1, expired);
        return true;
      }
      RecordsWrittenFrame(g, Abs(), s, count, bytes);
      ok := WriteRecords(s, count, bytes);
      if ok { ok := AfterAdvance(expired); }
    }

    method OnSourceSeq(s: nat, expired: bool)
      requires Valid()
      modifies this
      ensures Abs() == SourceSeqSeen(old(Abs()), s, expired) && Valid()
    {
      sourceSeq := Max(sourceSeq, s);
      if s >= next { Request(next, s, expired); }
    }

    method HandleControl(f: Frame, body: seq<Byte>, expired: bool) returns (ok: bool)
      requires Valid()
      modifies this
      ensures Abs() == ControlHandled(g, old(Abs()), f, body, expired) && ok == !failed
      ensures ok ==> Valid()
    {
      ControlKeepsHolesCovered(g, Abs(), f, body, expired);
      if f.kind == KIND_DATA {
        if !FrameSizesOk(g, f.count, f.len) {
          failed := true;
          return false;
        }
        retransmitted := retransmitted + f.count;
        ok := Apply(f.seq_, f.count, body, expired);
      } else if f.kind == KIND_GAP {
        ok := true;
        if f.seq_ > next {
          gaps, next := gaps + 1, f.seq_;
          ok := AfterAdvance(expired);
        }
      } else if f.kind == KIND_HEARTBEAT {
        OnSourceSeq(f.seq_, expired);
        ok := true;
      } else if f.kind == KIND_MULTICAST {
        ok := true;
      } else {
        failed, ok := true, false;
      }
    }

    method HandleDatagram(dgram: seq<Byte>, expired: bool) returns (ok: bool)
      requires Valid()
      modifies this
      ensures Abs() == DatagramHandled(g, session, old(Abs()), dgram, expired) && ok == !failed
      ensures ok ==> Valid()
    {
      ok := true;
      if |dgram| < FRAME_HEADER_LEN { return; }
      var f := DecodeHeader(dgram[..FRAME_HEADER_LEN]);
      if f.flags != session { return; }
      if f.kind == KIND_DATA {
        if !FrameSizesOk(g, f.count, f.len) || |dgram| < FRAME_HEADER_LEN + f.len { return; }
        ok := Apply(f.seq_, f.count, dgram[FRAME_HEADER_LEN..FRAME_HEADER_LEN + f.len], expired);
      } else if f.kind == KIND_HEARTBEAT {
        OnSourceSeq(f.seq_, expired);
      }
    }

    /** One frame of a TCP-only mirror. */
    method StepTcp(f: Frame, body: seq<Byte>) returns (ok: bool)
      requires GeometryOk(g) && !failed && next >= 1
      modifies this
      ensures Abs() == TcpHandled(g, old(Abs()), f, body) && ok == !failed
    {
      ok := true;
      if f.kind == KIND_DATA {
        if !FrameSizesOk(g, f.count, f.len) {
          failed := true;
          return false;
        }
        if f.seq_ < next {
          next, published, log := Max(1, f.seq_), 0, [];
          gaps, restarts := gaps + 1, restarts + 1;
        } else if f.seq_ > next {
          gaps, next := gaps + 1, f.seq_;
        }
        ok := WriteRecords(f.seq_, f.count, body);
      } else if f.kind == KIND_GAP {
        if f.seq_ > next { gaps, next := gaps + 1, f.seq_; }
      } else if f.kind == KIND_HEARTBEAT {
        sourceSeq := Max(sourceSeq, f.seq_);
      } else {
        failed, ok := true, false;
      }
    }
  }
}
