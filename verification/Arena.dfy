/** The cyclic payload arena: one monotone byte counter allocates, nothing is ever freed, and the
    same counter tells readers that a blob has been reserved over. */
module Arena {
  import opened Modular
  import Wire

  type Byte = Wire.Byte

  datatype BlobRef = BlobRef(offset: nat, len: nat, flags: nat)

  const EMPTY := BlobRef(0, 0, 0)

  datatype Reserved = Ok(blob: BlobRef) | PayloadTooLarge(len: nat, max: nat)

  predicate CapacityOk(cap: nat) { cap >= CACHE_LINE && Aligned(cap) }

  /** Bytes a blob of `len` bytes takes up: whole cache lines. */
  function SlotSize(len: nat): (s: nat)
    ensures Aligned(s) && len <= s < len + CACHE_LINE
  {
    if len == 0 then 0 else if len <= CACHE_LINE then CACHE_LINE else CACHE_LINE + SlotSize(len - CACHE_LINE)
  }

  /** Where a reservation that finds the counter at `curr` is placed, and the counter after it. */
  function Place(curr: nat, len: nat, cap: nat): (nat, nat)
    requires cap >= 1
  {
    if Ix(curr, cap) + len > cap then
      var aligned := curr - Ix(curr, cap) + cap;
      (aligned, aligned + SlotSize(len))
    else (curr, curr + SlotSize(len))
  }

  predicate InBounds(b: BlobRef, cap: nat)
    requires cap >= 1
  {
    Ix(b.offset, cap) + b.len <= cap
  }

  /** More than a whole arena has been reserved since the blob (the subtraction saturates). */
  predicate IsLapped(reserved: nat, b: BlobRef, cap: nat) { reserved > b.offset + cap }

  /** Physical byte `k` of a blob. */
  function At(b: BlobRef, k: nat, cap: nat): nat
    requires cap >= 1
  {
    Ix(b.offset, cap) + k
  }

  /** A blob that fits the arena still fits once rounded up, so a fresh blob is not lapped. */
  lemma {:induction false} SlotFits(len: nat, cap: nat)
    requires len <= cap && Aligned(cap)
    ensures SlotSize(len) <= cap
    decreases len
  {
    if len > CACHE_LINE { SlotFits(len - CACHE_LINE, cap - CACHE_LINE); }
  }

  lemma PlaceOk(curr: nat, len: nat, cap: nat, flags: nat)
    requires CapacityOk(cap) && Aligned(curr) && 1 <= len <= cap
    ensures var (offset, next) := Place(curr, len, cap);
            && curr <= offset && Aligned(offset) && next == offset + SlotSize(len)
            && Aligned(next) && InBounds(BlobRef(offset, len, flags), cap)
  {
    var next := Place(curr, len, cap).1;
    if Ix(curr, cap) + len > cap {
      NextLap(curr, cap);
      AlignedIx(curr, cap);
      AlignedDifference(curr, Ix(curr, cap));
      AlignedSum(curr - Ix(curr, cap), cap);
    }
    AlignedSum(next - SlotSize(len), SlotSize(len));
  }

  /** `len` bytes from `offset` on lie inside one lap of the arena. */
  predicate FitsAt(offset: nat, len: nat, cap: nat)
    requires cap >= 1
  {
    Ix(offset, cap) + len <= cap
  }

  /** A reservation that found the counter at `curr` starts at the first place where it fits: at the
      counter itself, or else at the beginning of the next lap. The counter then stands at its end,
      rounded up to whole cache lines. */
  ghost predicate Placed(curr: nat, offset: nat, next: nat, len: nat, cap: nat)
    requires cap >= 1
  {
    && curr <= offset && FitsAt(offset, len, cap) && (forall o: nat :: curr <= o < offset ==> !FitsAt(o, len, cap))
    && (offset == curr || (Ix(offset, cap) == 0 && offset < curr + cap))
    && offset + len <= next < offset + len + CACHE_LINE && Aligned(next - offset)
  }

  lemma PlaceIsFirstFit(curr: nat, len: nat, cap: nat)
    requires 1 <= len <= cap
    ensures Placed(curr, Place(curr, len, cap).0, Place(curr, len, cap).1, len, cap)
  {
    NextLap(curr, cap);
    if !FitsAt(curr, len, cap) {
      forall o | curr <= o < Place(curr, len, cap).0 ensures !FitsAt(o, len, cap) { WithinLap(curr, o - curr, cap); }
    }
  }

  /** A later blob can only reach a byte of an earlier one after a whole arena was reserved in
      between, and then the earlier one counts as lapped. */
  lemma OverlapMeansLapped(a: BlobRef, b: BlobRef, i: nat, j: nat, reserved: nat, cap: nat)
    requires cap >= 1 && InBounds(a, cap) && InBounds(b, cap) && i < a.len && j < b.len
    requires a.offset + a.len <= b.offset && b.offset + b.len <= reserved
    requires At(a, i, cap) == At(b, j, cap)
    ensures IsLapped(reserved, a, cap)
  {
    WithinLap(a.offset, i, cap);
    WithinLap(b.offset, j, cap);
    SameRemainder(b.offset + j, a.offset + i, cap);
  }

  // ------------------------------------------------------------------ concurrent reservations

  /** Each thread has loaded the counter for a blob it wants, or has not. `blobs` lists the
      reservations in the order their compare-and-swap succeeded. */
  datatype Claim = NoClaim | Loaded(curr: nat, len: nat, flags: nat)

  datatype System = System(cap: nat, reserved: nat, claims: map<nat, Claim>, blobs: seq<BlobRef>)

  datatype Step = Load(thread: nat, len: nat, flags: nat) | Swap(thread: nat)

  /** A failed compare-and-swap, real or spurious, leads back to the load. */
  predicate NextStep(s: System, s': System, step: Step) {
    match step
    case Load(t, len, flags) =>
      && 1 <= len <= s.cap && len < 0x1_0000_0000
      && s' == s.(claims := s.claims[t := Loaded(s.reserved, len, flags)])
    case Swap(t) =>
      && t in s.claims && s.claims[t].Loaded? && s.cap >= 1
      && var c := s.claims[t];
      && var (offset, next) := Place(c.curr, c.len, s.cap);
      && (|| s' == s.(claims := s.claims[t := NoClaim])
          || (&& c.curr == s.reserved
              && s' == s.(reserved := next, claims := s.claims[t := NoClaim],
                          blobs := s.blobs + [BlobRef(offset, c.len, c.flags)])))
  }

  predicate BlobOk(s: System, b: BlobRef)
    requires s.cap >= 1
  {
    Aligned(b.offset) && 1 <= b.len && InBounds(b, s.cap) && b.offset + SlotSize(b.len) <= s.reserved
  }

  predicate Inv(s: System) {
    && CapacityOk(s.cap) && Aligned(s.reserved)
    && (forall t :: t in s.claims && s.claims[t].Loaded? ==>
          1 <= s.claims[t].len <= s.cap && Aligned(s.claims[t].curr))
    && (forall i :: 0 <= i < |s.blobs| ==> BlobOk(s, s.blobs[i]))
    && (forall i, j :: 0 <= i < j < |s.blobs| ==>
          s.blobs[i].offset + SlotSize(s.blobs[i].len) <= s.blobs[j].offset)
  }

  lemma StepKeeps(s: System, s': System, step: Step)
    requires Inv(s) && NextStep(s, s', step)
    ensures Inv(s') && s.reserved <= s'.reserved && s.blobs <= s'.blobs
  {
    if step.Swap? {
      var c := s.claims[step.thread];
      PlaceOk(c.curr, c.len, s.cap, c.flags);
    }
  }

  ghost predicate Steps(s: System, s': System) { exists step :: NextStep(s, s', step) }

  ghost predicate StepAt(run: seq<System>, i: nat)
    requires 0 < i < |run|
  {
    Steps(run[i - 1], run[i])
  }

  ghost predicate Run(run: seq<System>) {
    && run != [] && CapacityOk(run[0].cap) && run[0] == System(run[0].cap, 0, map[], [])
    && forall i :: 0 < i < |run| ==> StepAt(run, i)
  }

  lemma {:induction false} RunKeeps(run: seq<System>, i: nat, j: nat)
    requires Run(run) && i <= j < |run|
    ensures Inv(run[i]) && Inv(run[j]) && run[i].cap == run[j].cap
    ensures run[i].reserved <= run[j].reserved && run[i].blobs <= run[j].blobs
    decreases j
  {
    if j > 0 {
      RunKeeps(run, if i < j then i else j - 1, j - 1);
      assert StepAt(run, j);
      var step :| NextStep(run[j - 1], run[j], step);
      StepKeeps(run[j - 1], run[j], step);
    }
  }

  /** With any number of threads reserving at once every blob is cache-line aligned, contiguous
      inside the arena and disjoint from all others in the logical byte stream. */
  lemma BlobsAreDisjoint(run: seq<System>, n: nat, i: nat, j: nat)
    requires Run(run) && n < |run| && i < j < |run[n].blobs|
    ensures run[n].cap >= 1
    ensures var (a, b) := (run[n].blobs[i], run[n].blobs[j]);
            && Aligned(a.offset) && Aligned(b.offset)
            && InBounds(a, run[n].cap) && InBounds(b, run[n].cap)
            && a.offset + a.len <= b.offset && b.offset + b.len <= run[n].reserved
  {
    RunKeeps(run, n, n);
    assert BlobOk(run[n], run[n].blobs[i]) && BlobOk(run[n], run[n].blobs[j]);
  }

  /** Left alone, a thread gets its blob by one load and one swap, at the first place behind everything
      reserved where it fits; what others have reserved stays. */
  lemma ReservationGoesThrough(run: seq<System>, n: nat, t: nat, len: nat, flags: nat)
    requires Run(run) && n < |run| && 1 <= len <= run[n].cap && len < 0x1_0000_0000
    ensures exists mid, s', offset :: && NextStep(run[n], mid, Load(t, len, flags)) && NextStep(mid, s', Swap(t))
                                      && s'.blobs == run[n].blobs + [BlobRef(offset, len, flags)] && s'.cap >= 1
                                      && Placed(run[n].reserved, offset, s'.reserved, len, s'.cap)
  {
    RunKeeps(run, n, n);
    var s := run[n];
    var (offset, next) := Place(s.reserved, len, s.cap);
    PlaceIsFirstFit(s.reserved, len, s.cap);
    var mid := s.(claims := s.claims[t := Loaded(s.reserved, len, flags)]);
    var s' := mid.(reserved := next, claims := mid.claims[t := NoClaim], blobs := s.blobs + [BlobRef(offset, len, flags)]);
    assert NextStep(s, mid, Load(t, len, flags)) && NextStep(mid, s', Swap(t));
  }

  /** A thread whose counter is out of date gets nothing. */
  lemma StaleSwapFails(s: System, s': System, t: nat)
    requires NextStep(s, s', Swap(t)) && s.claims[t].curr != s.reserved
    ensures s'.blobs == s.blobs && s'.reserved == s.reserved
  {
  }

  /** One counter detects every overwrite: from the moment a later reservation covers a byte of a
      blob, the blob counts as lapped, and it does so ever after. */
  lemma EveryOverwriteIsDetected(run: seq<System>, n: nat, later: nat, i: nat, j: nat, p: nat, q: nat)
    requires Run(run) && n <= later < |run| && i < j < |run[n].blobs|
    requires p < run[n].blobs[i].len && q < run[n].blobs[j].len
    requires run[n].cap >= 1 && At(run[n].blobs[i], p, run[n].cap) == At(run[n].blobs[j], q, run[n].cap)
    ensures IsLapped(run[later].reserved, run[n].blobs[i], run[n].cap)
    ensures run[later].reserved > run[n].blobs[i].offset + run[n].cap
  {
    RunKeeps(run, n, later);
    BlobsAreDisjoint(run, n, i, j);
    OverlapMeansLapped(run[n].blobs[i], run[n].blobs[j], p, q, run[n].reserved, run[n].cap);
  }

  // ------------------------------------------------------------------ the arena in place

  datatype Stored = Stored(blob: BlobRef, bytes: seq<Byte>)

  /** The bytes a descriptor names. */
  function BytesAt(data: seq<Byte>, b: BlobRef): (s: seq<Byte>)
    requires |data| >= 1 && InBounds(b, |data|)
    ensures |s| == b.len
  {
    data[Ix(b.offset, |data|)..Ix(b.offset, |data|) + b.len]
  }

  /** The blob lies inside the arena and, while it does not count as lapped, its bytes are there. */
  predicate Holds(data: seq<Byte>, reserved: nat, s: Stored) {
    && |data| >= 1 && s.blob.len == |s.bytes| >= 1 && InBounds(s.blob, |data|)
    && s.blob.offset + s.blob.len <= reserved
    && (!IsLapped(reserved, s.blob, |data|) ==> BytesAt(data, s.blob) == s.bytes)
  }

  predicate AllHeld(data: seq<Byte>, reserved: nat, stored: seq<Stored>) {
    && (forall i :: 0 <= i < |stored| ==> Holds(data, reserved, stored[i]))
    && (forall i, j :: 0 <= i < j < |stored| ==>
          stored[i].blob.offset + stored[i].blob.len <= stored[j].blob.offset)
  }

  function Overlaid(data: seq<Byte>, start: nat, bytes: seq<Byte>): (d: seq<Byte>)
    requires start + |bytes| <= |data|
    ensures |d| == |data|
  {
    data[..start] + bytes + data[start + |bytes|..]
  }

  lemma OverlaidElsewhere(data: seq<Byte>, start: nat, bytes: seq<Byte>, p: nat)
    requires start + |bytes| <= |data| && p < |data| && !(start <= p < start + |bytes|)
    ensures Overlaid(data, start, bytes)[p] == data[p]
  {
  }

  /** No byte of a blob lies where one reserved later without lapping it is written. */
  lemma Apart(a: BlobRef, b: BlobRef, k: nat, reserved: nat, cap: nat)
    requires cap >= 1 && InBounds(a, cap) && InBounds(b, cap) && k < a.len && !IsLapped(reserved, a, cap)
    requires a.offset + a.len <= b.offset && b.offset + b.len <= reserved
    ensures !(Ix(b.offset, cap) <= At(a, k, cap) < Ix(b.offset, cap) + b.len)
  {
    var p := At(a, k, cap);
    if Ix(b.offset, cap) <= p < Ix(b.offset, cap) + b.len {
      OverlapMeansLapped(a, b, k, p - Ix(b.offset, cap), reserved, cap);
    }
  }

  lemma SameBytes(data: seq<Byte>, d: seq<Byte>, b: BlobRef)
    requires |data| == |d| >= 1 && InBounds(b, |d|)
    requires forall p :: Ix(b.offset, |d|) <= p < Ix(b.offset, |d|) + b.len ==> d[p] == data[p]
    ensures BytesAt(d, b) == BytesAt(data, b)
  {
  }

  lemma BytesUntouched(data: seq<Byte>, reserved: nat, a: BlobRef, b: BlobRef, bytes: seq<Byte>)
    requires |data| >= 1 && InBounds(a, |data|) && InBounds(b, |data|) && b.len == |bytes|
    requires a.offset + a.len <= b.offset && b.offset + b.len <= reserved && !IsLapped(reserved, a, |data|)
    ensures BytesAt(Overlaid(data, Ix(b.offset, |data|), bytes), a) == BytesAt(data, a)
  {
    var cap := |data|;
    var d := Overlaid(data, Ix(b.offset, cap), bytes);
    forall p | Ix(a.offset, cap) <= p < Ix(a.offset, cap) + a.len ensures d[p] == data[p] {
      Apart(a, b, p - Ix(a.offset, cap), reserved, cap);
      OverlaidElsewhere(data, Ix(b.offset, cap), bytes, p);
    }
    SameBytes(data, d, a);
  }

  /** Writing where `b` was reserved leaves a blob that is not lapped by it as it was. */
  lemma Untouched(data: seq<Byte>, reserved: nat, s: Stored, b: BlobRef, bytes: seq<Byte>)
    requires Holds(data, reserved, s) && InBounds(b, |data|) && b.len == |bytes|
    requires s.blob.offset + s.blob.len <= b.offset && b.offset + b.len <= reserved
    ensures Holds(Overlaid(data, Ix(b.offset, |data|), bytes), reserved, s)
  {
    if !IsLapped(reserved, s.blob, |data|) { BytesUntouched(data, reserved, s.blob, b, bytes); }
  }

  /** What was laid over the arena at a blob's place is what its descriptor names. */
  lemma WrittenIsThere(data: seq<Byte>, b: BlobRef, bytes: seq<Byte>)
    requires |data| >= 1 && InBounds(b, |data|) && b.len == |bytes|
    ensures BytesAt(Overlaid(data, Ix(b.offset, |data|), bytes), b) == bytes
  {
  }

  /** A newly written blob joins the others, none of which that is not lapped has changed. */
  lemma Joins(data: seq<Byte>, reserved: nat, stored: seq<Stored>, b: BlobRef, bytes: seq<Byte>)
    requires AllHeld(data, reserved, stored) && |data| >= 1 && InBounds(b, |data|) && b.len == |bytes| >= 1
    requires forall i :: 0 <= i < |stored| ==> stored[i].blob.offset + stored[i].blob.len <= b.offset
    requires b.offset + b.len <= reserved
    ensures AllHeld(Overlaid(data, Ix(b.offset, |data|), bytes), reserved, stored + [Stored(b, bytes)])
  {
    WrittenIsThere(data, b, bytes);
    forall i | 0 <= i < |stored|
      ensures Holds(Overlaid(data, Ix(b.offset, |data|), bytes), reserved, stored[i])
    {
      Untouched(data, reserved, stored[i], b, bytes);
    }
    Appended(Overlaid(data, Ix(b.offset, |data|), bytes), reserved, stored, Stored(b, bytes));
  }

  lemma Appended(data: seq<Byte>, reserved: nat, stored: seq<Stored>, s: Stored)
    requires forall i :: 0 <= i < |stored| ==> Holds(data, reserved, stored[i])
    requires forall i, j :: 0 <= i < j < |stored| ==>
               stored[i].blob.offset + stored[i].blob.len <= stored[j].blob.offset
    requires forall i :: 0 <= i < |stored| ==> stored[i].blob.offset + stored[i].blob.len <= s.blob.offset
    requires Holds(data, reserved, s)
    ensures AllHeld(data, reserved, stored + [s])
  {
  }

  datatype Fetched = Bytes(bytes: seq<Byte>) | OutsideArena | BufferTooSmall(required: nat, provided: nat)

  class PayloadArena {
    const data: array<Byte>
    var reserved: nat
    /** Every non-empty blob ever written, oldest first. */
    ghost var stored: seq<Stored>

    ghost predicate Valid()
      reads this, data
    {
      CapacityOk(data.Length) && Aligned(reserved) && AllHeld(data[..], reserved, stored)
    }

    constructor (cap: nat)
      requires CapacityOk(cap)
      ensures Valid() && data.Length == cap && reserved == 0 && stored == [] && fresh(data)
    {
      this.data := new Byte[cap](_ => 0);
      this.reserved := 0;
      this.stored := [];
    }

    method Reserve(len: nat, flags: nat) returns (r: Reserved)
      requires Valid()
      modifies this`reserved
      ensures Valid()
      ensures len == 0 ==> r == Ok(EMPTY) && reserved == old(reserved)
      ensures 1 <= len <= data.Length && len < 0x1_0000_0000 ==>
                && r == Ok(BlobRef(Place(old(reserved), len, data.Length).0, len, flags))
                && reserved == Place(old(reserved), len, data.Length).1
                && Placed(old(reserved), r.blob.offset, reserved, len, data.Length)
      ensures len > data.Length || len >= 0x1_0000_0000 ==> r.PayloadTooLarge? && reserved == old(reserved)
    {
      if len == 0 { return Ok(EMPTY); }
      var cap := data.Length;
      var max := if cap < 0xFFFF_FFFF then cap else 0xFFFF_FFFF;
      if len > max { return PayloadTooLarge(len, max); }
      PlaceOk(reserved, len, cap, flags);
      PlaceIsFirstFit(reserved, len, cap);
      var (offset, next) := Place(reserved, len, cap);
      reserved := next;
      r := Ok(BlobRef(offset, len, flags));
    }

    method CopyIn(start: nat, bytes: seq<Byte>)
      requires start + |bytes| <= data.Length
      modifies data
      ensures data[..] == Overlaid(old(data[..]), start, bytes)
    {
      var k := 0;
      while k < |bytes|
        invariant 0 <= k <= |bytes|
        invariant data[..] == Overlaid(old(data[..]), start, bytes[..k])
      {
        data[start + k] := bytes[k];
        k := k + 1;
      }
      assert bytes[..k] == bytes;
    }

    /** Writes a payload. Every earlier blob that the reservation does not lap keeps its bytes, and
        the new one is not lapped. */
    method WriteBlob(bytes: seq<Byte>, flags: nat) returns (r: Reserved)
      requires Valid()
      modifies this, data
      ensures Valid()
      ensures r.PayloadTooLarge? <==> |bytes| > data.Length || |bytes| >= 0x1_0000_0000
      ensures r.PayloadTooLarge? || bytes == [] ==> reserved == old(reserved) && stored == old(stored)
      ensures r.Ok? && bytes == [] ==> r.blob == EMPTY
      ensures r.Ok? && bytes != [] ==>
                && r.blob == BlobRef(Place(old(reserved), |bytes|, data.Length).0, |bytes|, flags)
                && reserved == Place(old(reserved), |bytes|, data.Length).1
                && Placed(old(reserved), r.blob.offset, reserved, |bytes|, data.Length)
                && stored == old(stored) + [Stored(r.blob, bytes)] && reserved <= r.blob.offset + data.Length
    {
      r := Reserve(|bytes|, flags);
      if r.PayloadTooLarge? || bytes == [] { return; }
      PlaceOk(old(reserved), |bytes|, data.Length, flags);
      SlotFits(|bytes|, data.Length);
      Joins(data[..], reserved, stored, r.blob, bytes);
      CopyIn(Ix(r.blob.offset, data.Length), bytes);
      stored := stored + [Stored(r.blob, bytes)];
    }

    /** Copies the blob a descriptor names: refused when the descriptor lies outside the arena or the
        caller has too little room, and exactly what was written unless the blob is lapped. */
    method ReadBlob(b: BlobRef, room: nat) returns (r: Fetched)
      requires Valid()
      ensures b.len == 0 ==> r == Bytes([])
      ensures b.len > 0 ==> (r.OutsideArena? <==> !InBounds(b, data.Length))
      ensures b.len > 0 && InBounds(b, data.Length) && b.len > room ==> r == BufferTooSmall(b.len, room)
      ensures b.len > 0 && InBounds(b, data.Length) && b.len <= room ==>
                && r.Bytes? && |r.bytes| == b.len
                && (reserved <= b.offset + data.Length ==> forall s :: s in stored && s.blob == b ==> r.bytes == s.bytes)
    {
      if b.len == 0 { return Bytes([]); }
      var start := Ix(b.offset, data.Length);
      if start + b.len > data.Length { return OutsideArena; }
      if room < b.len { return BufferTooSmall(b.len, room); }
      r := Bytes(data[start..start + b.len]);
      assert r.bytes == BytesAt(data[..], b);
      assert forall s :: s in stored ==> Holds(data[..], reserved, s);
    }
  }
}
