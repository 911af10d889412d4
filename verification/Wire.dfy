/** The replication wire format (version 1): little-endian frame headers, and DATA payloads
    made of slot payloads each followed, for arena rings, by the blob bytes it names. */
module Wire {
  import opened Basics

  type Byte = b: int | 0 <= b < 256
  type U8 = n: int | 0 <= n < 0x100
  type U16 = n: int | 0 <= n < 0x1_0000
  type U32 = n: int | 0 <= n < 0x1_0000_0000
  type U64 = n: int | 0 <= n < 0x1_0000_0000_0000_0000

  const FRAME_HEADER_LEN := 16
  const BLOB_REF_LEN := 16
  const KIND_DATA: U8 := 3
  const TCP_FRAME_BYTES := 0x10_0000

  // ------------------------------------------------------------------ little-endian words

  function Pow256(w: nat): (p: nat)
    ensures p > 0
  {
    if w == 0 then 1 else 256 * Pow256(w - 1)
  }

  /** The low `w` bytes of `v`, least significant first. */
  function LeBytes(v: nat, w: nat): (b: seq<Byte>)
    ensures |b| == w
  {
    if w == 0 then [] else [v % 256] + LeBytes(v / 256, w - 1)
  }

  function LeValue(b: seq<Byte>): nat {
    if b == [] then 0 else b[0] + 256 * LeValue(b[1..])
  }

  lemma {:induction false} LeRoundTrip(v: nat, w: nat)
    requires v < Pow256(w)
    ensures LeValue(LeBytes(v, w)) == v
  {
    if w > 0 {
      LeRoundTrip(v / 256, w - 1);
      assert LeBytes(v, w)[1..] == LeBytes(v / 256, w - 1);
    }
  }

  lemma DivideTwice(v: nat, p: nat)
    requires p > 0
    ensures v / (256 * p) == v / 256 / p
  {
    var q, r, s := v / 256 / p, v / 256 % p, v % 256;
    assert v == 256 * (p * q + r) + s;
    assert v == (256 * p) * q + (256 * r + s) && 256 * r + s < 256 * p;
    Quotient(v, 256 * p, q, 256 * r + s);
  }

  lemma Ordered(d: nat, x: nat, q: nat)
    ensures x < q ==> d * x + d <= d * q
  {
    if x < q { assert d * (x + 1) <= d * q; }
  }

  lemma Quotient(v: nat, d: nat, q: nat, r: nat)
    requires d > 0 && v == d * q + r && r < d
    ensures v / d == q
  {
    var x := v / d;
    Ordered(d, x, q);
    Ordered(d, q, x);
  }

  /** Byte `i` is the one of weight 256 to the `i`: the order is little-endian. */
  lemma {:induction false} LeByteAt(v: nat, w: nat, i: nat)
    requires i < w
    ensures LeBytes(v, w)[i] == v / Pow256(i) % 256
  {
    if i > 0 {
      LeByteAt(v / 256, w - 1, i - 1);
      DivideTwice(v, Pow256(i - 1));
    }
  }

  lemma {:induction false} LeValueBound(b: seq<Byte>)
    ensures LeValue(b) < Pow256(|b|)
  {
    if b != [] { LeValueBound(b[1..]); }
  }

  lemma WordWidths()
    ensures Pow256(2) == 0x1_0000 && Pow256(4) == 0x1_0000_0000
    ensures Pow256(8) == 0x1_0000_0000_0000_0000
  {
    assert Pow256(1) == 256;
    assert Pow256(3) == 256 * Pow256(2);
    assert Pow256(5) == 256 * Pow256(4);
    assert Pow256(6) == 256 * Pow256(5);
    assert Pow256(7) == 256 * Pow256(6);
  }

  // ------------------------------------------------------------------ frame headers

  datatype Frame = Frame(kind: U8, flags: U8, count: U16, len: U32, seq_: U64)

  function EncodeHeader(f: Frame): (b: seq<Byte>)
    ensures |b| == FRAME_HEADER_LEN
  {
    [f.kind, f.flags] + LeBytes(f.count, 2) + LeBytes(f.len, 4) + LeBytes(f.seq_, 8)
  }

  function DecodeHeader(b: seq<Byte>): Frame
    requires |b| == FRAME_HEADER_LEN
  {
    WordWidths();
    LeValueBound(b[2..4]); LeValueBound(b[4..8]); LeValueBound(b[8..16]);
    Frame(b[0], b[1], LeValue(b[2..4]), LeValue(b[4..8]), LeValue(b[8..16]))
  }

  /** Where the fields of a header lie: kind, flags, then count, length and sequence, in two, four and
      eight bytes. */
  lemma HeaderLayout(f: Frame)
    ensures var b := EncodeHeader(f);
            && b[0] == f.kind && b[1] == f.flags
            && (forall i :: 0 <= i < 2 ==> b[2 + i] == f.count / Pow256(i) % 256)
            && (forall i :: 0 <= i < 4 ==> b[4 + i] == f.len / Pow256(i) % 256)
            && (forall i :: 0 <= i < 8 ==> b[8 + i] == f.seq_ / Pow256(i) % 256)
  {
    var b := EncodeHeader(f);
    forall i | 0 <= i < 2 ensures b[2 + i] == f.count / Pow256(i) % 256 { LeByteAt(f.count, 2, i); }
    forall i | 0 <= i < 4 ensures b[4 + i] == f.len / Pow256(i) % 256 { LeByteAt(f.len, 4, i); }
    forall i | 0 <= i < 8 ensures b[8 + i] == f.seq_ / Pow256(i) % 256 { LeByteAt(f.seq_, 8, i); }
  }

  lemma Pieces(a: seq<Byte>, b: seq<Byte>, c: seq<Byte>, d: seq<Byte>)
    requires |a| == 2 && |b| == 2 && |c| == 4 && |d| == 8
    ensures var s := a + b + c + d;
            |s| == 16 && s[0] == a[0] && s[1] == a[1] && s[2..4] == b && s[4..8] == c && s[8..16] == d
  {
  }

  lemma HeaderRoundTrip(f: Frame)
    ensures DecodeHeader(EncodeHeader(f)) == f
  {
    WordWidths();
    Pieces([f.kind, f.flags], LeBytes(f.count, 2), LeBytes(f.len, 4), LeBytes(f.seq_, 8));
    LeRoundTrip(f.count, 2); LeRoundTrip(f.len, 4); LeRoundTrip(f.seq_, 8);
  }

  lemma Whole(b: seq<Byte>)
    ensures b[..|b|] == b
  {
  }

  lemma HeaderAlone(f: Frame)
    ensures DecodeHeader(EncodeHeader(f)[..FRAME_HEADER_LEN]) == f
  {
    Whole(EncodeHeader(f));
    HeaderRoundTrip(f);
  }

  // ------------------------------------------------------------------ records

  /** What both ends know of the ring: bytes of slot payload per record, and whether each
      payload ends in a blob descriptor for an arena of `arenaSize` bytes. */
  datatype Geometry = Geometry(payloadLen: nat, hasArena: bool, arenaSize: nat)

  predicate GeometryOk(g: Geometry) { g.hasArena ==> g.payloadLen >= BLOB_REF_LEN }

  /** One record: its slot payload, and the blob bytes for arena rings. */
  datatype Record = Record(descriptor: seq<Byte>, blob: seq<Byte>)

  /** The words of the blob descriptor that ends a slot payload. */
  function BlobOffset(descriptor: seq<Byte>): nat
    requires |descriptor| >= BLOB_REF_LEN
  {
    LeValue(descriptor[|descriptor| - 16..|descriptor| - 8])
  }

  function BlobLen(descriptor: seq<Byte>): nat
    requires |descriptor| >= BLOB_REF_LEN
  {
    LeValue(descriptor[|descriptor| - 8..|descriptor| - 4])
  }

  function BlobFlags(descriptor: seq<Byte>): nat
    requires |descriptor| >= BLOB_REF_LEN
  {
    LeValue(descriptor[|descriptor| - 4..])
  }

  function RefBytes(offset: nat, len: nat, flags: nat): (d: seq<Byte>)
    ensures |d| == BLOB_REF_LEN
  {
    LeBytes(offset, 8) + LeBytes(len, 4) + LeBytes(flags, 4)
  }

  lemma TailWords(m: seq<Byte>, a: seq<Byte>, b: seq<Byte>, c: seq<Byte>)
    requires |a| == 8 && |b| == 4 && |c| == 4
    ensures var d := m + (a + b + c); var n := |d|;
            d[n - 16..n - 8] == a && d[n - 8..n - 4] == b && d[n - 4..] == c
  {
  }

  /** Whatever precedes it, a descriptor reads back as it was written. */
  lemma RefReadsBack(meta: seq<Byte>, offset: U64, len: U32, flags: U32)
    ensures var d := meta + RefBytes(offset, len, flags);
            BlobOffset(d) == offset && BlobLen(d) == len && BlobFlags(d) == flags
  {
    WordWidths();
    TailWords(meta, LeBytes(offset, 8), LeBytes(len, 4), LeBytes(flags, 4));
    LeRoundTrip(offset, 8); LeRoundTrip(len, 4); LeRoundTrip(flags, 4);
  }

  /** A record as it can appear in a ring of geometry `g`. */
  predicate RecordOk(g: Geometry, r: Record)
    requires GeometryOk(g)
  {
    && |r.descriptor| == g.payloadLen
    && (if g.hasArena then BlobLen(r.descriptor) == |r.blob| <= g.arenaSize else r.blob == [])
  }

  predicate RecordsOk(g: Geometry, rs: seq<Record>)
    requires GeometryOk(g)
  {
    forall i :: 0 <= i < |rs| ==> RecordOk(g, rs[i])
  }

  function EncodeRecords(rs: seq<Record>): seq<Byte> {
    if rs == [] then [] else rs[0].descriptor + rs[0].blob + EncodeRecords(rs[1..])
  }

  lemma {:induction false} EncodeRecordsAppend(rs: seq<Record>, r: Record)
    ensures EncodeRecords(rs + [r]) == EncodeRecords(rs) + r.descriptor + r.blob
  {
    if rs == [] {
      assert [r][1..] == [];
    } else {
      EncodeRecordsAppend(rs[1..], r);
      assert (rs + [r])[1..] == rs[1..] + [r];
      assert EncodeRecords(rs + [r])
          == rs[0].descriptor + rs[0].blob + (EncodeRecords(rs[1..]) + r.descriptor + r.blob);
    }
  }

  lemma EncodeCons(r: Record, rs: seq<Record>)
    ensures EncodeRecords([r] + rs) == r.descriptor + r.blob + EncodeRecords(rs)
  {
    assert ([r] + rs)[1..] == rs;
  }

  /** The receiver's walk over a DATA payload: the records it cuts off the front, and whether
      `count` of them used up every byte. */
  datatype Parsed = Parsed(records: seq<Record>, complete: bool)

  function Parse(g: Geometry, count: nat, bytes: seq<Byte>): Parsed
    requires GeometryOk(g)
    decreases count
  {
    if count == 0 then Parsed([], bytes == [])
    else if g.payloadLen > |bytes| then Parsed([], false)
    else
      var descriptor, rest := bytes[..g.payloadLen], bytes[g.payloadLen..];
      var len := if g.hasArena then BlobLen(descriptor) else 0;
      if len > |rest| then Parsed([], false)
      else
        var tail := Parse(g, count - 1, rest[len..]);
        Parsed([Record(descriptor, rest[..len])] + tail.records, tail.complete)
  }

  /** The parser inverts the encoder on every well-formed record list. */
  lemma {:induction false} ParseInvertsEncode(g: Geometry, rs: seq<Record>)
    requires GeometryOk(g) && RecordsOk(g, rs)
    ensures Parse(g, |rs|, EncodeRecords(rs)) == Parsed(rs, true)
  {
    if rs != [] {
      var r := rs[0];
      assert RecordOk(g, r);
      var bytes := EncodeRecords(rs);
      assert bytes[..g.payloadLen] == r.descriptor;
      assert bytes[g.payloadLen..] == r.blob + EncodeRecords(rs[1..]);
      assert bytes[g.payloadLen..][..|r.blob|] == r.blob;
      assert bytes[g.payloadLen..][|r.blob|..] == EncodeRecords(rs[1..]);
      ParseInvertsEncode(g, rs[1..]);
      assert [r] + rs[1..] == rs;
    }
  }

  /** Whatever the parser accepts is the encoding of the records it returns, so two different
      record lists never share a frame. */
  lemma {:induction false} ParseSound(g: Geometry, count: nat, bytes: seq<Byte>)
    requires GeometryOk(g) && Parse(g, count, bytes).complete
    ensures |Parse(g, count, bytes).records| == count
    ensures EncodeRecords(Parse(g, count, bytes).records) == bytes
  {
    if count > 0 {
      var descriptor, rest := bytes[..g.payloadLen], bytes[g.payloadLen..];
      var len := if g.hasArena then BlobLen(descriptor) else 0;
      ParseSound(g, count - 1, rest[len..]);
      EncodeCons(Record(descriptor, rest[..len]), Parse(g, count - 1, rest[len..]).records);
      Rejoin(bytes, g.payloadLen, len);
    }
  }

  lemma Rejoin(b: seq<Byte>, p: nat, n: nat)
    requires p + n <= |b|
    ensures b[..p] + b[p..][..n] + b[p..][n..] == b
  {
    assert b == b[..p] + b[p..];
    assert b[p..] == b[p..][..n] + b[p..][n..];
  }

  /** The receiver's size check on a DATA header. */
  predicate FrameSizesOk(g: Geometry, count: nat, len: nat) {
    && count != 0
    && (if g.hasArena then count * g.payloadLen <= len <= count * g.payloadLen + count * g.arenaSize
        else len == count * g.payloadLen)
  }

  lemma OneMore(n: nat, k: nat)
    ensures (n + 1) * k == n * k + k
  {
  }

  lemma {:induction false} EncodedSize(g: Geometry, rs: seq<Record>)
    requires GeometryOk(g) && RecordsOk(g, rs)
    ensures |rs| * g.payloadLen <= |EncodeRecords(rs)|
    ensures if g.hasArena then |EncodeRecords(rs)| <= |rs| * g.payloadLen + |rs| * g.arenaSize
            else |EncodeRecords(rs)| == |rs| * g.payloadLen
  {
    if rs != [] {
      assert RecordOk(g, rs[0]);
      EncodedSize(g, rs[1..]);
      OneMore(|rs[1..]|, g.payloadLen);
      OneMore(|rs[1..]|, g.arenaSize);
    }
  }

  /** A record with a blob of `n` bytes. */
  function RecordOf(g: Geometry, n: nat): Record
    requires GeometryOk(g)
  {
    if g.hasArena then Record(seq(g.payloadLen - BLOB_REF_LEN, _ => 0) + RefBytes(0, n, 0), seq(n, _ => 0))
    else Record(seq(g.payloadLen, _ => 0), [])
  }

  lemma RecordOfOk(g: Geometry, n: nat)
    requires GeometryOk(g) && n < 0x1_0000_0000 && (if g.hasArena then n <= g.arenaSize else n == 0)
    ensures RecordOk(g, RecordOf(g, n)) && |RecordOf(g, n).blob| == n
  {
    if g.hasArena { RefReadsBack(seq(g.payloadLen - BLOB_REF_LEN, _ => 0), 0, n, 0); }
  }

  /** So many records encoded in so many bytes. */
  ghost predicate Encodes(g: Geometry, rs: seq<Record>, count: nat, len: nat)
    requires GeometryOk(g)
  {
    RecordsOk(g, rs) && |rs| == count && |EncodeRecords(rs)| == len
  }

  lemma EncodesOneMore(g: Geometry, n: nat, rs: seq<Record>, count: nat, len: nat)
    requires GeometryOk(g) && n < 0x1_0000_0000 && (if g.hasArena then n <= g.arenaSize else n == 0)
    requires Encodes(g, rs, count, len)
    ensures Encodes(g, [RecordOf(g, n)] + rs, count + 1, g.payloadLen + n + len)
  {
    RecordOfOk(g, n);
    EncodeCons(RecordOf(g, n), rs);
  }

  lemma SizeLeft(k: nat, p: nat, a: nat, len: nat, n: nat)
    requires (k + 1) * p <= len <= (k + 1) * p + (k + 1) * a && n == Min(a, len - (k + 1) * p)
    ensures k * p <= len - p - n <= k * p + k * a
  {
    OneMore(k, p);
    OneMore(k, a);
  }

  lemma {:induction false} SomeRecords(g: Geometry, count: nat, len: nat) returns (rs: seq<Record>)
    requires GeometryOk(g) && (g.hasArena ==> g.arenaSize < 0x1_0000_0000)
    requires count * g.payloadLen <= len <= count * g.payloadLen + (if g.hasArena then count * g.arenaSize else 0)
    ensures Encodes(g, rs, count, len)
    decreases count
  {
    if count == 0 {
      rs := [];
    } else {
      var n := if g.hasArena then Min(g.arenaSize, len - count * g.payloadLen) else 0;
      SizeLeft(count - 1, g.payloadLen, if g.hasArena then g.arenaSize else 0, len, n);
      rs := SomeRecords(g, count - 1, len - g.payloadLen - n);
      EncodesOneMore(g, n, rs, count - 1, len - g.payloadLen - n);
      rs := [RecordOf(g, n)] + rs;
    }
  }

  /** With an arena of less than 4 GiB the receiver's size check lets through exactly the sizes that
      some list of records has. */
  lemma SizesOkIffSomeRecords(g: Geometry, count: nat, len: nat)
    requires GeometryOk(g) && (g.hasArena ==> g.arenaSize < 0x1_0000_0000)
    ensures FrameSizesOk(g, count, len) <==> count >= 1 && exists rs :: Encodes(g, rs, count, len)
  {
    if FrameSizesOk(g, count, len) {
      var rs := SomeRecords(g, count, len);
    } else if count >= 1 && exists rs :: Encodes(g, rs, count, len) {
      var rs :| Encodes(g, rs, count, len);
      EncodedSize(g, rs);
    }
  }

  // ------------------------------------------------------------------ DATA frames

  /** The header `data_frame` fills in; the casts truncate. */
  function DataHeader(flags: U8, seq_: U64, count: nat, len: nat): Frame {
    Frame(KIND_DATA, flags, count % 0x1_0000, len % 0x1_0000_0000, seq_)
  }

  /** A frame buffer holding `rs` behind its finished DATA header. */
  function DataFrame(flags: U8, seq_: U64, rs: seq<Record>): seq<Byte> {
    EncodeHeader(DataHeader(flags, seq_, |rs|, |EncodeRecords(rs)|)) + EncodeRecords(rs)
  }

  lemma Framed(f: Frame, body: seq<Byte>)
    ensures var wire := EncodeHeader(f) + body;
            DecodeHeader(wire[..FRAME_HEADER_LEN]) == f && wire[FRAME_HEADER_LEN..] == body
  {
    var h := EncodeHeader(f);
    assert (h + body)[..|h|] == h && (h + body)[|h|..] == body;
    HeaderRoundTrip(f);
  }

  lemma CastsAreExact(flags: U8, seq_: U64, count: nat, len: nat)
    requires count < 0x1_0000 && len < 0x1_0000_0000
    ensures DataHeader(flags, seq_, count, len) == Frame(KIND_DATA, flags, count, len, seq_)
  {
  }

  lemma DataFrameDecodes(flags: U8, seq_: U64, rs: seq<Record>)
    requires |rs| < 0x1_0000 && |EncodeRecords(rs)| < 0x1_0000_0000
    ensures var wire := DataFrame(flags, seq_, rs);
            && |wire| == FRAME_HEADER_LEN + |EncodeRecords(rs)|
            && wire[FRAME_HEADER_LEN..] == EncodeRecords(rs)
            && DecodeHeader(wire[..FRAME_HEADER_LEN])
               == Frame(KIND_DATA, flags, |rs|, |EncodeRecords(rs)|, seq_)
  {
    CastsAreExact(flags, seq_, |rs|, |EncodeRecords(rs)|);
    Framed(DataHeader(flags, seq_, |rs|, |EncodeRecords(rs)|), EncodeRecords(rs));
  }

  lemma EncodedSizeOk(g: Geometry, rs: seq<Record>)
    requires GeometryOk(g) && RecordsOk(g, rs) && rs != []
    ensures FrameSizesOk(g, |rs|, |EncodeRecords(rs)|)
  {
    EncodedSize(g, rs);
  }

  /** Every record list that fits the count and length fields survives the wire: the header
      decodes, the size check passes, and the parser returns the same records and stops at the
      last byte. */
  lemma DataFrameRoundTrip(g: Geometry, flags: U8, seq_: U64, rs: seq<Record>)
    requires GeometryOk(g) && RecordsOk(g, rs)
    requires 1 <= |rs| < 0x1_0000 && |EncodeRecords(rs)| < 0x1_0000_0000
    ensures var wire := DataFrame(flags, seq_, rs);
            && |wire| >= FRAME_HEADER_LEN
            && var h := DecodeHeader(wire[..FRAME_HEADER_LEN]);
            && h.kind == KIND_DATA && h.flags == flags && h.seq_ == seq_ && h.count == |rs|
            && h.len == |wire| - FRAME_HEADER_LEN
            && FrameSizesOk(g, h.count, h.len)
            && Parse(g, h.count, wire[FRAME_HEADER_LEN..]) == Parsed(rs, true)
  {
    DataFrameDecodes(flags, seq_, rs);
    EncodedSizeOk(g, rs);
    ParseInvertsEncode(g, rs);
  }

  /** Exactly the frames below 4 GiB announce the length of their body. */
  lemma LengthIsAnnouncedIffBelow4GiB(flags: U8, seq_: U64, rs: seq<Record>)
    ensures DecodeHeader(DataFrame(flags, seq_, rs)[..FRAME_HEADER_LEN]).len == |EncodeRecords(rs)|
            <==> |EncodeRecords(rs)| < 0x1_0000_0000
  {
    Framed(DataHeader(flags, seq_, |rs|, |EncodeRecords(rs)|), EncodeRecords(rs));
  }

  /** A record of an arena ring with a 16-byte slot payload whose frame body is `n` bytes long. */
  function BigRecord(n: nat): Record
    requires BLOB_REF_LEN <= n
  {
    Record(RefBytes(0, n - BLOB_REF_LEN, 0), seq(n - BLOB_REF_LEN, _ => 0))
  }

  lemma BigRecordOk(n: nat)
    requires BLOB_REF_LEN <= n <= 0x1_0000_0000
    ensures RecordsOk(Geometry(BLOB_REF_LEN, true, n), [BigRecord(n)]) && |EncodeRecords([BigRecord(n)])| == n
  {
    var d := RefBytes(0, n - BLOB_REF_LEN, 0);
    assert [] + d == d;
    RefReadsBack([], 0, n - BLOB_REF_LEN, 0);
  }

  /** And there are well-formed records beyond that: a single one, which the collector never splits,
      of 4 GiB in all is announced as an empty body. */
  lemma OversizedFrameIsMisannounced(flags: U8, seq_: U64)
    ensures exists g, r :: && GeometryOk(g) && RecordsOk(g, [r]) && |EncodeRecords([r])| == 0x1_0000_0000
                           && DecodeHeader(DataFrame(flags, seq_, [r])[..FRAME_HEADER_LEN]).len == 0
  {
    var r, g := BigRecord(0x1_0000_0000), Geometry(BLOB_REF_LEN, true, 0x1_0000_0000);
    BigRecordOk(0x1_0000_0000);
    Framed(DataHeader(flags, seq_, |[r]|, |EncodeRecords([r])|), EncodeRecords([r]));
    assert GeometryOk(g) && RecordsOk(g, [r]);
  }

  // ------------------------------------------------------------------ collecting a frame

  /** Outcome of one attempt to read a record from the source ring. */
  datatype RawRead = Item(record: Record) | Pending | Overwritten(seen: nat) | Lost

  function ItemsOf(results: seq<RawRead>): (rs: seq<Record>)
    requires forall i :: 0 <= i < |results| ==> results[i].Item?
    ensures |rs| == |results|
    ensures forall i :: 0 <= i < |rs| ==> rs[i] == results[i].record
  {
    seq(|results|, i requires 0 <= i < |results| => results[i].record)
  }

  /** Collects consecutive records behind what `out` already holds. `results` are the outcomes
      of the successive reads, which the concurrent producer decides. */
  method Collect(results: seq<RawRead>, maxRecords: nat, maxBytes: nat, out: seq<Byte>)
    returns (wire: seq<Byte>, count: nat, lapped: Option<nat>, lost: bool)
    requires |results| >= maxRecords
    ensures count <= maxRecords
    ensures forall i :: 0 <= i < count ==> results[i].Item?
    ensures wire == out + EncodeRecords(ItemsOf(results[..count]))
    // A record is never split, and the budget is only exceeded by a first record.
    ensures count <= 1 || |wire| <= maxBytes
    ensures lapped.Some? ==> count < maxRecords && results[count] == Overwritten(lapped.value)
    ensures lost ==> count < maxRecords && results[count] == Lost
    // It stops only for a reason: batch full, budget reached, or nothing more to read.
    ensures lapped.None? && !lost && count < maxRecords ==>
              || results[count].Pending?
              || (count > 0 && |wire| >= maxBytes)
              || (count > 0 && results[count].Item? &&
                  |wire| + |results[count].record.descriptor| + |results[count].record.blob| > maxBytes)
  {
    wire, count, lapped, lost := out, 0, None, false;
    assert results[..0] == [];
    while count < maxRecords
      invariant count <= maxRecords && lapped.None? && !lost
      invariant forall i :: 0 <= i < count ==> results[i].Item?
      invariant wire == out + EncodeRecords(ItemsOf(results[..count]))
      invariant count <= 1 || |wire| <= maxBytes
      invariant count > 0 ==> |wire| < maxBytes
    {
      match results[count]
      case Item(r) =>
        if count > 0 && |wire| + |r.descriptor| + |r.blob| > maxBytes { return; }
        EncodeRecordsAppend(ItemsOf(results[..count]), r);
        assert ItemsOf(results[..count + 1]) == ItemsOf(results[..count]) + [r];
        wire := wire + r.descriptor + r.blob;
        count := count + 1;
        if |wire| >= maxBytes { return; }
      case Pending => return;
      case Overwritten(seen) =>
        lapped := Some(seen);
        return;
      case Lost =>
        lost := true;
        return;
    }
  }
}
