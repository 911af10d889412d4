/** A producer whose slots carry descriptors of payloads in a byte arena. One push reserves arena
    bytes, fills them one by one, writes the slot and only then announces the message; rings
    without an arena are the same with nothing to reserve. */
module BlobRing {
  import opened Modular
  import opened SlotProtocol
  import opened Arena
  import Wire

  type Geometry = Wire.Geometry

  /** A message: the slot payload, the blob it describes and the blob's bytes. */
  datatype Packet = Packet(descriptor: seq<Byte>, blob: BlobRef, payload: seq<Byte>)

  /** Between messages, with `k` bytes of the newest packet's payload in the arena, or writing its
      slot. */
  datatype Phase = Ready | Filling(k: nat) | Storing

  /** `sent` maps each sequence to the packet pushed under it, `last` is the newest of them. A
      producer pushes under consecutive sequences; a mirror leaves holes. */
  datatype State = State(ring: Ring, data: seq<Byte>, reserved: nat, sent: map<nat, Packet>, last: nat, phase: Phase)

  // ------------------------------------------------------------------ descriptors

  function RefOf(descriptor: seq<Byte>): BlobRef
    requires |descriptor| >= Wire.BLOB_REF_LEN
  {
    BlobRef(Wire.BlobOffset(descriptor), Wire.BlobLen(descriptor), Wire.BlobFlags(descriptor))
  }

  function RefBytes(b: BlobRef): (d: seq<Byte>)
    ensures |d| == Wire.BLOB_REF_LEN
  {
    Wire.RefBytes(b.offset, b.len, b.flags)
  }

  /** A descriptor read back from a slot names the blob it was written for. */
  lemma RefRoundTrip(meta: seq<Byte>, b: BlobRef)
    requires b.offset < 0x1_0000_0000_0000_0000 && b.len < 0x1_0000_0000 && b.flags < 0x1_0000_0000
    ensures RefOf(meta + RefBytes(b)) == b
  {
    Wire.RefReadsBack(meta, b.offset, b.len, b.flags);
  }

  // ------------------------------------------------------------------ producer steps

  datatype PushStep =
    | Reserve(n: nat, meta: seq<Byte>, payload: seq<Byte>, flags: Wire.U32)
    | Fill
    | Store(w: WriterStep)
    | Announce

  /** The packet a push of `payload` makes when the arena counter stands at `reserved`, and the
      counter after it. */
  function Reservation(g: Geometry, cap: nat, reserved: nat, meta: seq<Byte>, payload: seq<Byte>, flags: Wire.U32): (Packet, nat)
    requires cap >= 1
  {
    if !g.hasArena then (Packet(meta, EMPTY, []), reserved)
    else if payload == [] then (Packet(meta + RefBytes(EMPTY), EMPTY, []), reserved)
    else
      var (offset, next) := Place(reserved, |payload|, cap);
      var b := BlobRef(offset, |payload|, flags);
      (Packet(meta + RefBytes(b), b, payload), next)
  }

  predicate HasLast(s: State) { s.last in s.sent }

  function Last(s: State): Packet
    requires HasLast(s)
  {
    s.sent[s.last]
  }

  /** One action of the writer. The 64-bit counters are not exhausted. */
  predicate Pushes(g: Geometry, s: State, s': State, step: PushStep) {
    && |s.data| >= 1
    && match step
    case Reserve(n, meta, payload, flags) =>
      && s.phase.Ready? && |payload| <= |s.data| && |payload| < 0x1_0000_0000
      && s.last < n && n + 2 < 0x1_0000_0000_0000_0000
      && var (p, next) := Reservation(g, |s.data|, s.reserved, meta, payload, flags);
      && |p.descriptor| == s.ring.width && next < 0x1_0000_0000_0000_0000
      && s' == s.(reserved := next, sent := s.sent[n := p], last := n, phase := Filling(0))
    case Fill =>
      && s.phase.Filling? && HasLast(s) && s.phase.k < |Last(s).payload|
      && At(Last(s).blob, s.phase.k, |s.data|) < |s.data|
      && s' == s.(data := s.data[At(Last(s).blob, s.phase.k, |s.data|) := Last(s).payload[s.phase.k]],
                  phase := Filling(s.phase.k + 1))
    case Store(w) =>
      && !w.Publish? && Writes(s.ring, s'.ring, w)
      && (if w.Begin? then
            HasLast(s) && s.phase == Filling(|Last(s).payload|) && w == Begin(s.last, Last(s).descriptor)
          else s.phase.Storing?)
      && s' == s.(ring := s'.ring, phase := if w.Finish? then Ready else Storing)
    case Announce => s.phase.Ready? && Writes(s.ring, s'.ring, Publish) && s' == s.(ring := s'.ring)
  }

  /** How `BlobProducer` pushes: the next sequence, and no flags. */
  predicate ByProducer(s: State, step: PushStep) { step.Reserve? ==> step.n == s.last + 1 && step.flags == 0 }

  // ------------------------------------------------------------------ invariant

  predicate PacketOk(g: Geometry, s: State, p: Packet)
    requires |s.data| >= 1
  {
    && |p.descriptor| == s.ring.width && p.blob.len == |p.payload|
    && (!g.hasArena ==> p.payload == [])
    && (if p.payload == [] then p.blob == EMPTY
        else InBounds(p.blob, |s.data|) && p.blob.offset + p.blob.len <= s.reserved)
  }

  /** Every slot payload ends in the descriptor of its blob. */
  predicate NamesOk(g: Geometry, s: State) {
    g.hasArena ==> forall n :: n in s.sent ==>
      |s.sent[n].descriptor| >= Wire.BLOB_REF_LEN && RefOf(s.sent[n].descriptor) == s.sent[n].blob
  }

  predicate Before(p: Packet, q: Packet) {
    p.payload != [] && q.payload != [] ==> p.blob.offset + p.blob.len <= q.blob.offset
  }

  /** How many payload bytes of packet `n` have been copied into the arena. */
  function Filled(s: State, n: nat): (k: nat)
    requires n in s.sent
  {
    if n == s.last && s.phase.Filling? then s.phase.k else |s.sent[n].payload|
  }

  /** Unless the blob counts as lapped, what was copied in is there. */
  predicate BytesOk(s: State, n: nat)
    requires n in s.sent && |s.data| >= 1
  {
    var p := s.sent[n];
    && Filled(s, n) <= |p.payload|
    && (!IsLapped(s.reserved, p.blob, |s.data|) && p.payload != [] && InBounds(p.blob, |s.data|)
        && p.blob.len == |p.payload| ==>
          forall k :: 0 <= k < Filled(s, n) ==> s.data[At(p.blob, k, |s.data|)] == p.payload[k])
  }

  predicate PacketsOk(g: Geometry, s: State)
    requires |s.data| >= 1
  {
    && (forall n :: n in s.sent ==> PacketOk(g, s, s.sent[n]))
    && (forall m, n :: m in s.sent && n in s.sent && m < n ==> Before(s.sent[m], s.sent[n]))
    && (forall n :: n in s.sent ==> BytesOk(s, n))
  }

  /** The ring's messages are the packets, and only the newest can be unfinished. */
  predicate Aligns(s: State) {
    && (s.phase.Storing? <==> s.ring.writer.Copying?)
    && (if s.phase.Filling? then s.ring.top < s.last else s.ring.top == s.last)
    && (s.last != 0 ==> HasLast(s))
    && (forall n :: n in s.sent ==> 1 <= n <= s.last && (n in s.ring.hist || n == s.last))
    && (s.ring.writer.Copying? ==> HasLast(s) && s.ring.writer.item == Last(s).descriptor)
    && (forall n :: n in s.ring.hist ==> n in s.sent && s.ring.hist[n] == s.sent[n].descriptor)
  }

  predicate StateOk(g: Geometry, s: State) {
    && CapacityOk(|s.data|) && Aligned(s.reserved) && RingOk(s.ring) && Aligns(s) && PacketsOk(g, s)
    && s.last + 2 < 0x1_0000_0000_0000_0000 && (g.hasArena ==> s.ring.width >= Wire.BLOB_REF_LEN)
  }

  /** Every sequence has been pushed, without holes. */
  predicate Gapless(s: State) {
    Dense(s.ring) && (forall n :: 1 <= n <= s.last ==> n in s.sent) && (s.phase.Filling? ==> s.last == s.ring.top + 1)
  }

  predicate Init(g: Geometry, s: State) {
    && s.ring.cap >= 1 && s.ring == Fresh(s.ring.cap, s.ring.width) && CapacityOk(|s.data|)
    && s.reserved == 0 && s.sent == map[] && s.last == 0 && s.phase == Ready
    && (g.hasArena ==> s.ring.width >= Wire.BLOB_REF_LEN)
  }

  lemma InitHolds(g: Geometry, s: State)
    requires Init(g, s)
    ensures StateOk(g, s) && Gapless(s) && NamesOk(g, s)
  {
    FreshHolds(s.ring.cap, s.ring.width);
  }

  /** What a reservation makes: a packet in bounds behind everything reserved before. */
  lemma ReservationOk(g: Geometry, cap: nat, reserved: nat, meta: seq<Byte>, payload: seq<Byte>, flags: Wire.U32)
    requires CapacityOk(cap) && Aligned(reserved) && |payload| <= cap && |payload| < 0x1_0000_0000
    requires Reservation(g, cap, reserved, meta, payload, flags).1 < 0x1_0000_0000_0000_0000
    ensures var (p, next) := Reservation(g, cap, reserved, meta, payload, flags);
            && Aligned(next) && reserved <= next && p.blob.len == |p.payload|
            && (if p.payload == [] then p.blob == EMPTY && next == reserved
                else InBounds(p.blob, cap) && reserved <= p.blob.offset && p.blob.offset + p.blob.len <= next
                     && p.payload == payload && Placed(reserved, p.blob.offset, next, p.blob.len, cap)
                     && !IsLapped(next, p.blob, cap))
            && (!g.hasArena ==> p.payload == [])
  {
    if g.hasArena && payload != [] {
      PlaceOk(reserved, |payload|, cap, 0);
      PlaceIsFirstFit(reserved, |payload|, cap);
      SlotFits(|payload|, cap);
    }
  }

  /** The descriptor of a reservation is the metadata followed by the blob's name. */
  lemma ReservationNames(g: Geometry, cap: nat, reserved: nat, meta: seq<Byte>, payload: seq<Byte>, flags: Wire.U32)
    requires CapacityOk(cap) && Aligned(reserved) && |payload| <= cap && |payload| < 0x1_0000_0000 && g.hasArena
    requires Reservation(g, cap, reserved, meta, payload, flags).1 < 0x1_0000_0000_0000_0000
    ensures var p := Reservation(g, cap, reserved, meta, payload, flags).0;
            && |p.descriptor| >= Wire.BLOB_REF_LEN && RefOf(p.descriptor) == p.blob
            && p.descriptor[..|p.descriptor| - Wire.BLOB_REF_LEN] == meta
            && p.payload == payload && (payload != [] ==> p.blob.flags == flags)
  {
    if payload == [] {
      RefRoundTrip(meta, EMPTY);
    } else {
      PlaceOk(reserved, |payload|, cap, 0);
      RefRoundTrip(meta, BlobRef(Place(reserved, |payload|, cap).0, |payload|, flags));
    }
  }

  lemma BytesStayUnder(s: State, s': State, n: nat)
    requires n in s.sent && |s.data| >= 1 && BytesOk(s, n)
    requires s'.data == s.data && s.reserved <= s'.reserved && n in s'.sent && s'.sent[n] == s.sent[n]
    requires Filled(s', n) == Filled(s, n)
    ensures BytesOk(s', n)
  {
  }

  lemma ReserveKeepsBytes(g: Geometry, s: State, s': State, step: PushStep, n: nat)
    requires StateOk(g, s) && Pushes(g, s, s', step) && step.Reserve? && n in s'.sent
    ensures BytesOk(s', n)
  {
    if n != step.n {
      ReservationOk(g, |s.data|, s.reserved, step.meta, step.payload, step.flags);
      assert BytesOk(s, n);
      BytesStayUnder(s, s', n);
    }
  }

  lemma ReserveKeepsOrder(g: Geometry, s: State, s': State, step: PushStep, m: nat, n: nat)
    requires StateOk(g, s) && Pushes(g, s, s', step) && step.Reserve? && m in s'.sent && n in s'.sent && m < n
    ensures Before(s'.sent[m], s'.sent[n])
  {
    ReservationOk(g, |s.data|, s.reserved, step.meta, step.payload, step.flags);
    assert PacketOk(g, s, s.sent[m]);
    if n != step.n { assert Before(s.sent[m], s.sent[n]); }
  }

  lemma ReserveKeepsPackets(g: Geometry, s: State, s': State, step: PushStep)
    requires StateOk(g, s) && Pushes(g, s, s', step) && step.Reserve?
    ensures PacketsOk(g, s') && Aligned(s'.reserved)
  {
    ReservationOk(g, |s.data|, s.reserved, step.meta, step.payload, step.flags);
    forall n | n in s'.sent ensures BytesOk(s', n) && PacketOk(g, s', s'.sent[n]) {
      ReserveKeepsBytes(g, s, s', step, n);
      if n != step.n { assert PacketOk(g, s, s.sent[n]); }
    }
    forall m, n | m in s'.sent && n in s'.sent && m < n ensures Before(s'.sent[m], s'.sent[n]) {
      ReserveKeepsOrder(g, s, s', step, m, n);
    }
  }

  lemma ReserveKeeps(g: Geometry, s: State, s': State, step: PushStep)
    requires StateOk(g, s) && Pushes(g, s, s', step) && step.Reserve?
    ensures StateOk(g, s')
  {
    ReserveKeepsPackets(g, s, s', step);
  }

  /** The byte written next belongs to no earlier blob that is not lapped. */
  lemma FillMisses(g: Geometry, s: State, n: nat, k: nat)
    requires StateOk(g, s) && s.phase.Filling? && n in s.sent && n < s.last && k < |s.sent[n].payload|
    requires HasLast(s) && s.phase.k < |Last(s).payload| && !IsLapped(s.reserved, s.sent[n].blob, |s.data|)
    ensures At(s.sent[n].blob, k, |s.data|) != At(Last(s).blob, s.phase.k, |s.data|)
  {
    var p, q, cap := s.sent[n], Last(s), |s.data|;
    assert PacketOk(g, s, p) && PacketOk(g, s, q) && Before(p, q);
    if At(p.blob, k, cap) == At(q.blob, s.phase.k, cap) {
      OverlapMeansLapped(p.blob, q.blob, k, s.phase.k, s.reserved, cap);
    }
  }

  lemma FillKeepsOlder(g: Geometry, s: State, s': State, n: nat)
    requires StateOk(g, s) && Pushes(g, s, s', Fill) && n in s.sent && n < s.last
    ensures BytesOk(s', n)
  {
    var p, cap := s.sent[n], |s.data|;
    assert BytesOk(s, n);
    if !IsLapped(s.reserved, p.blob, cap) && p.payload != [] && InBounds(p.blob, cap) && p.blob.len == |p.payload| {
      forall k | 0 <= k < Filled(s', n) ensures s'.data[At(p.blob, k, cap)] == p.payload[k] {
        FillMisses(g, s, n, k);
      }
    }
  }

  lemma FillGrowsNewest(s: State, s': State)
    requires HasLast(s) && s.phase.Filling? && |s.data| >= 1 && BytesOk(s, s.last)
    requires s.phase.k < |Last(s).payload| && At(Last(s).blob, s.phase.k, |s.data|) < |s.data|
    requires s' == s.(data := s.data[At(Last(s).blob, s.phase.k, |s.data|) := Last(s).payload[s.phase.k]],
                      phase := Filling(s.phase.k + 1))
    ensures BytesOk(s', s.last)
  {
  }

  /** Filling the newest blob disturbs no byte of a blob that is not lapped. */
  lemma FillKeepsBytes(g: Geometry, s: State, s': State, n: nat)
    requires StateOk(g, s) && Pushes(g, s, s', Fill) && n in s.sent
    ensures BytesOk(s', n)
  {
    if n < s.last { FillKeepsOlder(g, s, s', n); } else { FillGrowsNewest(s, s'); }
  }

  lemma FillKeeps(g: Geometry, s: State, s': State)
    requires StateOk(g, s) && Pushes(g, s, s', Fill)
    ensures StateOk(g, s')
  {
    forall n | n in s'.sent ensures BytesOk(s', n) && PacketOk(g, s', s'.sent[n]) {
      FillKeepsBytes(g, s, s', n);
      assert PacketOk(g, s, s.sent[n]);
    }
    forall m, n | m in s'.sent && n in s'.sent && m < n ensures Before(s'.sent[m], s'.sent[n]) {
      assert Before(s.sent[m], s.sent[n]);
    }
  }

  /** Slot writes and announcements leave arena and packets alone. */
  lemma PacketsStay(g: Geometry, s: State, s': State)
    requires |s.data| >= 1 && PacketsOk(g, s) && s'.data == s.data && s'.reserved == s.reserved
    requires s'.sent == s.sent && s'.last == s.last && s'.ring.width == s.ring.width
    requires s'.phase == s.phase || (!s'.phase.Filling? && (s.phase.Filling? ==> HasLast(s) && s.phase.k == |Last(s).payload|))
    ensures PacketsOk(g, s')
  {
    forall n | n in s'.sent ensures BytesOk(s', n) && PacketOk(g, s', s'.sent[n]) {
      assert BytesOk(s, n) && PacketOk(g, s, s.sent[n]);
      BytesStayUnder(s, s', n);
    }
    forall m, n | m in s'.sent && n in s'.sent && m < n ensures Before(s'.sent[m], s'.sent[n]) {
      assert Before(s.sent[m], s.sent[n]);
    }
  }

  lemma StoreAligns(g: Geometry, s: State, s': State, w: WriterStep)
    requires StateOk(g, s) && Pushes(g, s, s', Store(w))
    ensures Aligns(s')
  {
  }

  lemma StoreKeeps(g: Geometry, s: State, s': State, w: WriterStep)
    requires StateOk(g, s) && Pushes(g, s, s', Store(w))
    ensures StateOk(g, s')
  {
    WriterKeeps(s.ring, s'.ring, w);
    PacketsStay(g, s, s');
    StoreAligns(g, s, s', w);
  }

  lemma AnnounceKeeps(g: Geometry, s: State, s': State)
    requires StateOk(g, s) && Pushes(g, s, s', Announce)
    ensures StateOk(g, s')
  {
    WriterKeeps(s.ring, s'.ring, Publish);
    PacketsStay(g, s, s');
  }

  predicate Advances(s: State, s': State) {
    && s.reserved <= s'.reserved && |s.data| == |s'.data| && s.last <= s'.last
    && forall n :: n in s.sent ==> n in s'.sent && s'.sent[n] == s.sent[n]
  }

  lemma PushKeeps(g: Geometry, s: State, s': State, step: PushStep)
    requires StateOk(g, s) && Pushes(g, s, s', step)
    ensures StateOk(g, s') && Advances(s, s')
  {
    match step
    case Reserve(_, meta, payload, flags) =>
      ReservationOk(g, |s.data|, s.reserved, meta, payload, flags);
      ReserveKeeps(g, s, s', step);
    case Fill => FillKeeps(g, s, s');
    case Store(w) => StoreKeeps(g, s, s', w);
    case Announce => AnnounceKeeps(g, s, s');
  }

  lemma PushKeepsGapless(g: Geometry, s: State, s': State, step: PushStep)
    requires RingOk(s.ring) && Aligns(s) && Gapless(s) && Pushes(g, s, s', step) && ByProducer(s, step)
    ensures Gapless(s')
  {
    match step
    case Store(w) => DenseKept(s.ring, s'.ring, w);
    case Announce => DenseKept(s.ring, s'.ring, Publish);
    case _ =>
  }

  lemma RingMoves(g: Geometry, s: State, s': State, step: PushStep)
    requires StateOk(g, s) && Pushes(g, s, s', step)
    ensures s'.ring == s.ring || exists w :: Writes(s.ring, s'.ring, w)
    ensures s.ring.top <= s'.ring.top && s.ring.writeSeq <= s'.ring.writeSeq && s.ring.cap == s'.ring.cap
    ensures forall n :: n in s.ring.hist ==> n in s'.ring.hist
    ensures forall n :: Gone(s.ring, n) ==> Shape(s'.ring) && Gone(s'.ring, n) && (n in s'.ring.hist ==> n in s.ring.hist)
  {
    match step
    case Store(w) => GoneStays(s.ring, s'.ring, w);
    case Announce => GoneStays(s.ring, s'.ring, Publish);
    case _ =>
  }

  lemma GoneStays(r: Ring, r': Ring, w: WriterStep)
    requires RingOk(r) && Writes(r, r', w)
    ensures RingOk(r') && Evolves(r, r')
    ensures forall n :: Gone(r, n) ==> Gone(r', n) && (n in r'.hist ==> n in r.hist)
  {
    WriterKeeps(r, r', w);
    forall n | Gone(r, n) ensures Gone(r', n) && (n in r'.hist ==> n in r.hist) { GoneForever(r, r', w, n); }
  }

  lemma ReadMoves(g: Geometry, s: State, s': State, step: PushStep, want: nat, rd: Read)
    requires StateOk(g, s) && Pushes(g, s, s', step) && want >= 1 && ReadInv(s.ring, want, rd)
    ensures Shape(s'.ring) && ReadInv(s'.ring, want, rd)
  {
    RingMoves(g, s, s', step);
    if s'.ring != s.ring {
      var w :| Writes(s.ring, s'.ring, w);
      ReadUndisturbed(s.ring, s'.ring, w, want, rd);
    }
  }

  lemma PushKeepsNames(g: Geometry, s: State, s': State, step: PushStep)
    requires CapacityOk(|s.data|) && Aligned(s.reserved) && NamesOk(g, s) && Pushes(g, s, s', step)
    ensures NamesOk(g, s')
  {
    if step.Reserve? && g.hasArena {
      ReservationNames(g, |s.data|, s.reserved, step.meta, step.payload, step.flags);
    }
  }

  // ------------------------------------------------------------------ reading a blob byte by byte

  /** What a copy of packet `p`'s bytes under way knows. */
  predicate CopyOk(s: State, p: Packet, buf: seq<Byte>) {
    |buf| <= |p.payload| && (!IsLapped(s.reserved, p.blob, |s.data|) ==> buf == p.payload[..|buf|])
  }

  /** One more byte keeps it so: a published packet is complete, and stays intact until it is lapped. */
  lemma CopyByte(g: Geometry, s: State, n: nat, buf: seq<Byte>)
    requires StateOk(g, s) && n in s.ring.hist && n in s.sent && |buf| < |s.sent[n].payload|
    requires CopyOk(s, s.sent[n], buf)
    ensures var p := s.sent[n];
            && InBounds(p.blob, |s.data|) && At(p.blob, |buf|, |s.data|) < |s.data|
            && CopyOk(s, p, buf + [s.data[At(p.blob, |buf|, |s.data|)]])
  {
    assert BytesOk(s, n) && PacketOk(g, s, s.sent[n]);
    assert Filled(s, n) == |s.sent[n].payload|;
  }

  /** The producer cannot make a copy wrong without making the blob lapped. */
  lemma CopyUndisturbed(s: State, s': State, p: Packet, buf: seq<Byte>)
    requires CopyOk(s, p, buf) && Advances(s, s')
    ensures CopyOk(s', p, buf)
  {
  }
}
