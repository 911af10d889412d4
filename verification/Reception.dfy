/** What becomes of each frame and datagram a mirror takes: early records are kept until the hole in
    front of them closes and are then written, strangers' datagrams change nothing, and what is
    announced and missing is asked for. */
module Reception {
  import opened Basics
  import opened Wire
  import opened Mirror
  import opened Faithful

  // ------------------------------------------------------------------ what is written is what was parsed

  /** The entries for records from sequence `s` on that lie at or above `floor`. */
  function Above(rs: seq<Record>, s: nat, floor: nat): seq<Written> {
    if rs == [] then [] else (if s >= floor then [Written(s, rs[0])] else []) + Above(rs[1..], s + 1, floor)
  }

  /** Each of these blobs fits the mirror's arena. */
  predicate BlobsFit(g: Geometry, es: seq<Written>) {
    forall i :: 0 <= i < |es| && g.hasArena ==> |es[i].record.blob| <= g.arenaSize
  }

  lemma AboveFirst(g: Geometry, r: Record, rs: seq<Record>, s: nat, floor: nat)
    ensures Above([r] + rs, s, floor) == (if s >= floor then [Written(s, r)] else []) + Above(rs, s + 1, floor)
    ensures s >= floor ==>
              (BlobsFit(g, Above([r] + rs, s, floor)) <==>
               (g.hasArena ==> |r.blob| <= g.arenaSize) && BlobsFit(g, Above(rs, s + 1, floor)))
  {
    assert ([r] + rs)[1..] == rs;
    var es, more := Above([r] + rs, s, floor), Above(rs, s + 1, floor);
    if s >= floor {
      assert es[0] == Written(s, r) && es[1..] == more;
      if BlobsFit(g, es) { forall i | 0 <= i < |more| && g.hasArena ensures |more[i].record.blob| <= g.arenaSize { assert es[i + 1] == more[i]; } }
    }
  }

  /** What writing the parsed records `p` from sequence `s` on leads to. */
  predicate Wrote(g: Geometry, m: State, w: State, p: Parsed, s: nat, floor: nat) {
    && (w.failed <==> !(p.complete && BlobsFit(g, Above(p.records, s, floor))))
    && (!w.failed ==> w.log == m.log + Above(p.records, s, floor))
  }

  lemma WroteFirst(g: Geometry, m: State, w: State, r: Record, p: Parsed, s: nat, floor: nat)
    requires Wrote(g, WriteOne(m, floor, s, r), w, p, s + 1, floor)
    requires s >= floor && g.hasArena ==> |r.blob| <= g.arenaSize
    ensures Wrote(g, m, w, Parsed([r] + p.records, p.complete), s, floor)
  {
    AboveFirst(g, r, p.records, s, floor);
    var more := Above(p.records, s + 1, floor);
    assert m.log + [Written(s, r)] + more == m.log + ([Written(s, r)] + more);
    assert [] + more == more;
  }

  /** Whatever bytes a DATA payload holds, writing it fails exactly when it is not that many whole
      records and nothing else, or one that would be written has a blob larger than the arena; and
      otherwise what is written is those of its records that lie at or above the write position. */
  lemma {:induction false} WritesWhatParses(g: Geometry, m: State, floor: nat, s: nat, count: nat, bytes: seq<Byte>)
    requires GeometryOk(g) && !m.failed
    ensures Wrote(g, m, AllWritten(g, m, floor, s, count, bytes), Parse(g, count, bytes), s, floor)
    decreases count
  {
    if count == 0 {
      assert m.log + [] == m.log;
    } else if g.payloadLen <= |bytes| {
      var descriptor, rest := bytes[..g.payloadLen], bytes[g.payloadLen..];
      var len := if g.hasArena then BlobLen(descriptor) else 0;
      if len <= |rest| {
        var r, tail := Record(descriptor, rest[..len]), Parse(g, count - 1, rest[len..]);
        assert Parse(g, count, bytes) == Parsed([r] + tail.records, tail.complete);
        if s >= floor && len > g.arenaSize && g.hasArena {
          AboveFirst(g, r, tail.records, s, floor);
        } else {
          var m' := WriteOne(m, floor, s, r);
          WritesWhatParses(g, m', floor, s + 1, count - 1, rest[len..]);
          WroteFirst(g, m, AllWritten(g, m', floor, s + 1, count - 1, rest[len..]), r, tail, s, floor);
        }
      }
    }
  }

  // ------------------------------------------------------------------ early records are kept

  /** A request for the hole up to `to`, or for as much of it as one request may name, is outstanding,
      and a new one asks for no more. */
  predicate Asked(m: State, r: State, to: nat) {
    && r.nak.Some? && r.nak.value.from == r.next
    && (r.nak.value.to >= to || r.nak.value.to >= r.next + NAK_MAX - 1) && (r.nak == m.nak || r.nak.value.to <= to)
  }

  /** Records that arrive ahead of the write position are kept, as they came, while there is room:
      at most `PENDING_MAX` datagrams, the first one for a sequence. The hole is asked for and
      nothing is written. */
  lemma EarlyIsKept(g: Geometry, m: State, s: nat, count: nat, bytes: seq<Byte>, expired: bool)
    requires GeometryOk(g) && Positive(m) && s > m.next
    ensures var r := Applied(g, m, s, count, bytes, expired);
            && r.next == m.next && r.log == m.log && !r.failed
            && (s in r.pending <==> s in m.pending || |m.pending| < PENDING_MAX)
            && (s in r.pending && s !in m.pending ==> r.pending[s] == Parked(count, bytes))
            && (forall k :: k in m.pending ==> k in r.pending && r.pending[k] == m.pending[k])
            && Asked(m, r, s - 1)
  {
  }

  /** Where an advance ends with datagrams parked, the hole in front of the first of them is asked for. */
  lemma {:induction false} HoleIsAskedFor(g: Geometry, m: State, expired: bool)
    requires GeometryOk(g) && Positive(m) && !Advanced(g, m, expired).failed
    ensures var r := Advanced(g, m, expired);
            r.pending.Keys != {} ==> FirstKey(r.pending.Keys) > r.next && Asked(m, r, FirstKey(r.pending.Keys) - 1)
    decreases |m.pending|
  {
    var r := Round(g, m, expired);
    RoundCovers(g, m, expired);
    if r.1 {
      if r.0.pending.Keys != {} { RoundAsks(g, m, expired); }
    } else {
      RoundKeepsNak(g, m, expired);
      HoleIsAskedFor(g, r.0, expired);
    }
  }

  lemma RoundAsks(g: Geometry, m: State, expired: bool)
    requires GeometryOk(g) && Positive(m)
    requires var r := Round(g, m, expired); r.1 && !r.0.failed && r.0.pending.Keys != {}
    ensures var r := Round(g, m, expired).0;
            FirstKey(r.pending.Keys) > r.next && Asked(m, r, FirstKey(r.pending.Keys) - 1)
  {
  }

  lemma RoundKeepsNak(g: Geometry, m: State, expired: bool)
    requires GeometryOk(g) && Positive(m) && !Round(g, m, expired).1
    ensures Round(g, m, expired).0.nak in {m.nak, None}
  {
    var m1 := DropSatisfied(m);
    if m1.pending.Keys != {} {
      var s := FirstKey(m1.pending.Keys);
      var p, m2 := m1.pending[s], m1.(pending := m1.pending - {s});
      if s <= m2.next < s + p.count { RecordsWrittenFrame(g, m2, s, p.count, p.bytes); }
    }
  }

  // ------------------------------------------------------------------ and written in time

  /** The datagram parked at `s` is there still, or the write position has passed its records. */
  predicate ParkedOrPassed(m: State, r: State, s: nat)
    requires s in m.pending
  {
    (s in r.pending && r.pending[s] == m.pending[s]) || r.next >= s + m.pending[s].count
  }

  lemma RoundUsesParked(g: Geometry, m: State, expired: bool, s: nat)
    requires GeometryOk(g) && Positive(m) && s in m.pending && !Round(g, m, expired).0.failed
    ensures ParkedOrPassed(m, Round(g, m, expired).0, s)
  {
    var m1 := DropSatisfied(m);
    var first := FirstKey(m1.pending.Keys);
    if first == s && first + m1.pending[first].count > m1.next >= first {
      RecordsWrittenFrame(g, m1.(pending := m1.pending - {first}), first, m1.pending[first].count, m1.pending[first].bytes);
    }
  }

  lemma {:induction false} AdvancedUsesParked(g: Geometry, m: State, expired: bool, s: nat)
    requires GeometryOk(g) && Positive(m) && s in m.pending && !Advanced(g, m, expired).failed
    ensures ParkedOrPassed(m, Advanced(g, m, expired), s)
    decreases |m.pending|
  {
    var r := Round(g, m, expired);
    RoundCovers(g, m, expired);
    RoundUsesParked(g, m, expired, s);
    if !r.1 {
      AdvancedCovers(g, r.0, expired);
      if s in r.0.pending { AdvancedUsesParked(g, r.0, expired, s); }
    }
  }

  /** Once the write position stands at or behind the first of the parked records, an advance takes
      it past the last of them. */
  lemma AdvancePassesParked(g: Geometry, m: State, expired: bool, s: nat)
    requires GeometryOk(g) && Positive(m) && s in m.pending && s <= m.next && !Advanced(g, m, expired).failed
    ensures Advanced(g, m, expired).next >= s + m.pending[s].count
  {
    AdvancedUsesParked(g, m, expired, s);
    AdvancedCovers(g, m, expired);
  }

  /** Record `k` of the source is in the mirror's ring. */
  predicate InRing(pushed: seq<Record>, r: State, k: nat) {
    1 <= k <= |pushed| && Written(k, pushed[k - 1]) in r.log
  }

  lemma GrownHas(pushed: seq<Record>, m: State, r: State)
    requires Grown(pushed, m, r)
    ensures forall k :: m.next <= k < r.next ==> InRing(pushed, r, k)
  {
    forall k | m.next <= k < r.next ensures InRing(pushed, r, k) {
      assert r.log[|m.log| + (k - m.next)] == Entries(pushed, m.next, r.next)[k - m.next];
    }
  }

  /** When records up to a parked datagram arrive, the write position passes that datagram's records
      too, and all of them, from the old write position on, are in the ring as the source pushed
      them. */
  lemma EarlyIsWrittenInTime(g: Geometry, pushed: seq<Record>, m: State, n: nat, count: nat, expired: bool, s: nat)
    requires GeometryOk(g) && RecordsOk(g, pushed) && Positive(m) && HolesCovered(m) && PendingHonest(pushed, m)
    requires 1 <= count && 1 <= n <= m.next && n - 1 + count <= |pushed|
    requires s in m.pending && s <= n + count
    ensures var r := Applied(g, m, n, count, EncodeRecords(Slice(pushed, n, count)), expired);
            r.next >= s + m.pending[s].count && forall k :: m.next <= k < r.next ==> InRing(pushed, r, k)
  {
    var bytes := EncodeRecords(Slice(pushed, n, count));
    var r := Applied(g, m, n, count, bytes, expired);
    AppliedHonest(g, pushed, m, n, count, expired);
    RecordsWrittenHonest(g, pushed, m, n, count);
    AdvancePassesParked(g, RecordsWritten(g, m, n, count, bytes), expired, s);
    GrownHas(pushed, m, r);
  }

  function GapTaken(m: State, s: nat): State { m.(gaps := m.gaps + 1, next := s) }

  lemma GapAdvances(g: Geometry, m: State, f: Frame, body: seq<Byte>, expired: bool)
    requires GeometryOk(g) && Positive(m) && f.kind == KIND_GAP && f.seq_ > m.next
    ensures ControlHandled(g, m, f, body, expired) == Advanced(g, GapTaken(m, f.seq_), expired)
  {
  }

  /** A GAP that reaches a parked datagram lets its records be written as well. */
  lemma GapReleasesParked(g: Geometry, pushed: seq<Record>, m: State, f: Frame, body: seq<Byte>, expired: bool, s: nat)
    requires GeometryOk(g) && RecordsOk(g, pushed) && Positive(m) && PendingHonest(pushed, m)
    requires f.kind == KIND_GAP && f.seq_ > m.next && s in m.pending && s <= f.seq_
    ensures var r := ControlHandled(g, m, f, body, expired);
            r.next >= s + m.pending[s].count && forall k :: f.seq_ <= k < r.next ==> InRing(pushed, r, k)
  {
    var m1 := GapTaken(m, f.seq_);
    GapAdvances(g, m, f, body, expired);
    AdvancedHonest(g, pushed, m1, expired);
    AdvancePassesParked(g, m1, expired, s);
    GrownHas(pushed, m1, Advanced(g, m1, expired));
  }

  // ------------------------------------------------------------------ datagrams

  function HeaderOf(dgram: seq<Byte>): Frame
    requires |dgram| >= FRAME_HEADER_LEN
  {
    DecodeHeader(dgram[..FRAME_HEADER_LEN])
  }

  /** A DATA datagram of the mirror's session that holds what its header says. */
  predicate OwnData(g: Geometry, session: U8, dgram: seq<Byte>) {
    |dgram| >= FRAME_HEADER_LEN &&
    var f := HeaderOf(dgram);
    f.flags == session && f.kind == KIND_DATA && FrameSizesOk(g, f.count, f.len) && |dgram| >= FRAME_HEADER_LEN + f.len
  }

  /** A heartbeat of the mirror's session. */
  predicate OwnBeat(session: U8, dgram: seq<Byte>) {
    |dgram| >= FRAME_HEADER_LEN && HeaderOf(dgram).flags == session && HeaderOf(dgram).kind == KIND_HEARTBEAT
  }

  /** Foreign, short, ill-sized and other datagrams change nothing. */
  lemma StrangersChangeNothing(g: Geometry, session: U8, m: State, dgram: seq<Byte>, expired: bool)
    requires GeometryOk(g) && Positive(m) && !OwnData(g, session, dgram) && !OwnBeat(session, dgram)
    ensures DatagramHandled(g, session, m, dgram, expired) == m
  {
  }

  /** An early datagram is kept with the count and the bytes it came with. */
  lemma EarlyDatagramIsKept(g: Geometry, session: U8, m: State, dgram: seq<Byte>, expired: bool)
    requires GeometryOk(g) && Positive(m) && OwnData(g, session, dgram)
    requires var s := HeaderOf(dgram).seq_; s > m.next && s !in m.pending && |m.pending| < PENDING_MAX
    ensures var f := HeaderOf(dgram);
            DatagramHandled(g, session, m, dgram, expired).pending
            == m.pending[f.seq_ := Parked(f.count, dgram[FRAME_HEADER_LEN..FRAME_HEADER_LEN + f.len])]
  {
  }

  // ------------------------------------------------------------------ announcements

  /** The source has announced `s`, and if that is missing it, or as much as one request may name,
      is being asked for. */
  predicate Noted(m: State, r: State, s: nat) {
    && r == m.(sourceSeq := Max(m.sourceSeq, s), nak := r.nak, sent := r.sent)
    && (if s < m.next then r.nak == m.nak && r.sent == m.sent else Asked(m, r, s))
  }

  lemma HeartbeatsAreNoted(g: Geometry, session: U8, m: State, dgram: seq<Byte>, f: Frame, body: seq<Byte>, expired: bool)
    requires GeometryOk(g) && Positive(m)
    ensures OwnBeat(session, dgram) ==> Noted(m, DatagramHandled(g, session, m, dgram, expired), HeaderOf(dgram).seq_)
    ensures f.kind == KIND_HEARTBEAT ==> Noted(m, ControlHandled(g, m, f, body, expired), f.seq_)
  {
  }

  // ------------------------------------------------------------------ control frames

  /** Writing records and advancing leave these counters alone. */
  predicate SameCounts(m: State, r: State) {
    r.gaps == m.gaps && r.retransmitted == m.retransmitted && r.restarts == m.restarts
  }

  /** Everything written has been announced. */
  predicate Announced(m: State) { m.published == m.next - 1 }

  lemma {:induction false} AllWrittenCounts(g: Geometry, m: State, floor: nat, s: nat, count: nat, bytes: seq<Byte>)
    requires GeometryOk(g)
    ensures var w := AllWritten(g, m, floor, s, count, bytes); SameCounts(m, w) && w.sourceSeq == m.sourceSeq
    decreases count
  {
    if count > 0 && g.payloadLen <= |bytes| {
      var descriptor, rest := bytes[..g.payloadLen], bytes[g.payloadLen..];
      var len := if g.hasArena then BlobLen(descriptor) else 0;
      if len <= |rest| && !(s >= floor && len > g.arenaSize && g.hasArena) {
        var m' := if s >= floor then Append(m, s, Record(descriptor, rest[..len])) else m;
        AllWrittenCounts(g, m', floor, s + 1, count - 1, rest[len..]);
      }
    }
  }

  lemma RecordsWrittenCounts(g: Geometry, m: State, s: nat, count: nat, bytes: seq<Byte>)
    requires GeometryOk(g) && Positive(m) && count >= 1 && s <= m.next
    ensures var w := RecordsWritten(g, m, s, count, bytes);
            SameCounts(m, w) && (!w.failed ==> Announced(w) && w.sourceSeq == Max(m.sourceSeq, s + count - 1))
  {
    AllWrittenCounts(g, m, m.next, s, count, bytes);
    RecordsWrittenFrame(g, m, s, count, bytes);
  }

  lemma RoundCounts(g: Geometry, m: State, expired: bool)
    requires GeometryOk(g) && Positive(m)
    ensures var r := Round(g, m, expired).0; SameCounts(m, r) && (!r.failed && Announced(m) ==> Announced(r))
  {
    var m1 := DropSatisfied(m);
    if m1.pending.Keys != {} {
      var s := FirstKey(m1.pending.Keys);
      var p, m2 := m1.pending[s], m1.(pending := m1.pending - {s});
      if s <= m2.next < s + p.count { RecordsWrittenCounts(g, m2, s, p.count, p.bytes); }
    }
  }

  lemma {:induction false} AdvancedCounts(g: Geometry, m: State, expired: bool)
    requires GeometryOk(g) && Positive(m)
    ensures var r := Advanced(g, m, expired); SameCounts(m, r) && (!r.failed && Announced(m) ==> Announced(r))
    decreases |m.pending|
  {
    RoundCounts(g, m, expired);
    RoundCovers(g, m, expired);
    var r := Round(g, m, expired);
    if !r.1 { AdvancedCounts(g, r.0, expired); }
  }

  /** What is written is announced at once, parked records that follow included. */
  lemma AppliedCounts(g: Geometry, m: State, s: nat, count: nat, bytes: seq<Byte>, expired: bool)
    requires GeometryOk(g) && Positive(m)
    ensures var r := Applied(g, m, s, count, bytes, expired);
            SameCounts(m, r) && (!r.failed && s <= m.next < s + count ==> Announced(r))
  {
    if s <= m.next < s + count {
      RecordsWrittenCounts(g, m, s, count, bytes);
      RecordsWrittenFrame(g, m, s, count, bytes);
      var w := RecordsWritten(g, m, s, count, bytes);
      if !w.failed { AdvancedCounts(g, w, expired); }
    }
  }

  /** Retransmitted records are counted; a GAP moves the write position and is counted if it lies
      ahead, and changes nothing otherwise; the frame that named the group changes nothing; frames of
      the wrong size or of another kind end the connection. */
  lemma ControlFramesTaken(g: Geometry, m: State, f: Frame, body: seq<Byte>, expired: bool)
    requires GeometryOk(g) && Positive(m) && HolesCovered(m)
    ensures var r := ControlHandled(g, m, f, body, expired);
            && (f.kind == KIND_DATA ==>
                  if FrameSizesOk(g, f.count, f.len)
                  then r.retransmitted == m.retransmitted + f.count && r.gaps == m.gaps
                  else r == m.(failed := true))
            && (f.kind == KIND_GAP ==>
                  if f.seq_ > m.next then r.gaps == m.gaps + 1 && (r.failed || r.next >= f.seq_) else r == m)
            && (f.kind == KIND_MULTICAST ==> r == m)
            && (f.kind !in {KIND_DATA, KIND_GAP, KIND_HEARTBEAT, KIND_MULTICAST} ==> r.failed)
  {
    if f.kind == KIND_DATA {
      AppliedCounts(g, m.(retransmitted := m.retransmitted + f.count), f.seq_, f.count, body, expired);
    } else if f.kind == KIND_GAP && f.seq_ > m.next {
      GapAdvances(g, m, f, body, expired);
      AdvancedCounts(g, GapTaken(m, f.seq_), expired);
      AdvancedCovers(g, GapTaken(m, f.seq_), expired);
    }
  }

  /** Asking again after the timeout puts the same request on the stream. */
  lemma RepeatedAsItWas(m: State)
    ensures var r := NakRepeated(m);
            && (m.nak.None? ==> r == m)
            && (m.nak.Some? ==> r == m.(sent := r.sent) && r.sent == m.sent + [m.nak.value])
  {
  }

  // ------------------------------------------------------------------ TCP-only mirrors

  /** On a TCP-only mirror the records of a frame are written whatever their sequence: in line with
      the ring, ahead of a hole that is left and counted, or, when the source has begun again below
      the write position, in a fresh ring that holds nothing else. */
  lemma TcpDataIsWritten(g: Geometry, pushed: seq<Record>, m: State, f: Frame)
    requires GeometryOk(g) && RecordsOk(g, pushed) && Positive(m) && m.nak.None?
    requires f.kind == KIND_DATA && FrameSizesOk(g, f.count, f.len) && 1 <= f.seq_ && f.seq_ - 1 + f.count <= |pushed|
    ensures var r := TcpHandled(g, m, f, EncodeRecords(Slice(pushed, f.seq_, f.count)));
            && !r.failed && r.next == f.seq_ + f.count && Announced(r)
            && r.log == (if f.seq_ < m.next then [] else m.log) + Entries(pushed, f.seq_, f.seq_ + f.count)
            && r.gaps == (if f.seq_ == m.next then m.gaps else m.gaps + 1)
            && r.restarts == (if f.seq_ < m.next then m.restarts + 1 else m.restarts)
  {
    var j := JumpedTo(m, f.seq_);
    RecordsWrittenHonest(g, pushed, j, f.seq_, f.count);
    RecordsWrittenCounts(g, j, f.seq_, f.count, EncodeRecords(Slice(pushed, f.seq_, f.count)));
  }

  lemma TcpControlFramesTaken(g: Geometry, m: State, f: Frame, body: seq<Byte>)
    requires GeometryOk(g) && Positive(m)
    ensures var r := TcpHandled(g, m, f, body);
            && (f.kind == KIND_DATA && !FrameSizesOk(g, f.count, f.len) ==> r.failed)
            && (f.kind == KIND_GAP ==>
                  r == if f.seq_ > m.next then GapTaken(m, f.seq_) else m)
            && (f.kind == KIND_HEARTBEAT ==> r == m.(sourceSeq := r.sourceSeq) && r.sourceSeq == Max(m.sourceSeq, f.seq_))
            && (f.kind !in {KIND_DATA, KIND_GAP, KIND_HEARTBEAT} ==> r.failed)
  {
  }
}
