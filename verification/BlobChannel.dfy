/** The blob ring as its owner and a consumer work on it between each other's actions: payloads in
    the arena, their descriptors in the slots. */
module BlobChannel {
  import opened Basics
  import opened Spmc
  import opened Arena

  /** A slot payload: metadata words, then the blob's offset, length and flags. */
  function Describe(meta: Payload, b: BlobRef): Payload { meta + [b.offset, b.len, b.flags] }

  predicate IsDescriptor(d: Payload) { |d| >= 3 && forall k :: |d| - 3 <= k < |d| ==> d[k] >= 0 }

  function BlobOf(d: Payload): BlobRef
    requires IsDescriptor(d)
  {
    BlobRef(d[|d| - 3], d[|d| - 2], d[|d| - 1])
  }

  function MetaOf(d: Payload): Payload
    requires IsDescriptor(d)
  {
    d[..|d| - 3]
  }

  lemma DescribeRoundTrip(meta: Payload, b: BlobRef)
    ensures IsDescriptor(Describe(meta, b)) && BlobOf(Describe(meta, b)) == b && MetaOf(Describe(meta, b)) == meta
  {
  }

  datatype Packet = Packet(meta: Payload, bytes: seq<Byte>)

  /** A slot payload describes its packet, whose bytes, if any, were stored in the arena. */
  predicate Describes(d: Payload, p: Packet, stored: seq<Stored>) {
    && IsDescriptor(d) && MetaOf(d) == p.meta && BlobOf(d).len == |p.bytes| && BlobOf(d).flags == 0
    && (if p.bytes == [] then BlobOf(d) == EMPTY else Stored(BlobOf(d), p.bytes) in stored)
  }

  predicate AllDescribed(sent: seq<Payload>, packets: seq<Packet>, stored: seq<Stored>) {
    |packets| == |sent| && forall i :: 0 <= i < |sent| ==> Describes(sent[i], packets[i], stored)
  }

  predicate LappedAt(sent: seq<Payload>, n: nat, reserved: nat, cap: nat)
    requires 1 <= n <= |sent| && IsDescriptor(sent[n - 1])
  {
    IsLapped(reserved, BlobOf(sent[n - 1]), cap)
  }

  /** The first message from `n` on whose blob does not count as lapped, or the one after the last. */
  function FirstWhole(sent: seq<Payload>, n: nat, reserved: nat, cap: nat): (m: nat)
    requires 1 <= n && forall i :: 0 <= i < |sent| ==> IsDescriptor(sent[i])
    ensures n <= m && (n <= |sent| + 1 ==> m <= |sent| + 1)
    ensures m <= |sent| ==> !LappedAt(sent, m, reserved, cap)
    ensures forall k :: n <= k < m && k <= |sent| ==> LappedAt(sent, k, reserved, cap)
    decreases |sent| - n
  {
    if n > |sent| || !LappedAt(sent, n, reserved, cap) then n
    else FirstWhole(sent, n + 1, reserved, cap)
  }

  /** A message still in the ring is the next one unless it is lapped, and then the search goes on
      behind it; without one the search is over. */
  lemma StayOrAdvance(sent: seq<Payload>, cursor: nat, reserved: nat, cap: nat, arenaCap: nat)
    requires cap >= 1 && cursor >= 1 && forall i :: 0 <= i < |sent| ==> IsDescriptor(sent[i])
    ensures var m := FirstWhole(sent, From(cursor, |sent|, cap), reserved, arenaCap);
            && (cursor > |sent| ==> m == cursor)
            && (cursor <= |sent| < cursor + cap && !LappedAt(sent, cursor, reserved, arenaCap) ==> m == cursor)
            && (cursor <= |sent| < cursor + cap && LappedAt(sent, cursor, reserved, arenaCap) ==>
                  m == FirstWhole(sent, From(cursor + 1, |sent|, cap), reserved, arenaCap) > cursor)
  {
  }

  /** The shared memory: ring, arena, and what was pushed through them. */
  class Channel {
    const ring: Ring
    const arena: PayloadArena
    var next: nat
    ghost var packets: seq<Packet>

    ghost predicate Valid()
      reads this, ring, ring.words, ring.data, arena, arena.data
    {
      ring.Valid() && arena.Valid() && next == |ring.sent| + 1 && AllDescribed(ring.sent, packets, arena.stored)
    }

    constructor (cap: nat, arenaCap: nat)
      requires cap >= 1 && CapacityOk(arenaCap)
      ensures Valid() && packets == [] && ring.words.Length == cap && arena.data.Length == arenaCap
      ensures fresh(ring) && fresh(ring.words) && fresh(ring.data) && fresh(arena) && fresh(arena.data)
    {
      ring := new Ring(cap, []);
      arena := new PayloadArena(arenaCap);
      next, packets := 1, [];
    }

    /** Writes the payload, then its descriptor, then announces the message. A payload that is too
        large changes nothing. */
    method Push(meta: Payload, payload: seq<Byte>) returns (sequence: Option<nat>)
      requires Valid()
      modifies this, ring, ring.words, ring.data, arena, arena.data
      ensures Valid()
      ensures sequence.None? <==> |payload| > arena.data.Length || |payload| >= 0x1_0000_0000
      ensures sequence.None? ==> packets == old(packets) && ring.writeSeq == old(ring.writeSeq)
      ensures sequence.Some? ==> packets == old(packets) + [Packet(meta, payload)]
                                 && sequence == Some(|packets|) && ring.writeSeq == |packets|
    {
      var r := arena.WriteBlob(payload, 0);
      if r.PayloadTooLarge? { return None; }
      DescribeRoundTrip(meta, r.blob);
      ring.WriteSlot(next, Describe(meta, r.blob));
      ring.writeSeq := next;
      sequence := Some(next);
      next := next + 1;
      packets := packets + [Packet(meta, payload)];
    }

    /** The descriptor in a slot payload just read. */
    method BlobAt(n: nat, d: Payload) returns (b: BlobRef)
      requires Valid() && 1 <= n <= |ring.sent| && d == ring.sent[n - 1]
      ensures IsDescriptor(d) && b == BlobOf(d) && InBounds(b, arena.data.Length)
      ensures |packets| == |ring.sent| && MetaOf(d) == packets[n - 1].meta && b.len == |packets[n - 1].bytes|
      ensures packets[n - 1].bytes != [] ==> Stored(b, packets[n - 1].bytes) in arena.stored
    {
      assert Describes(ring.sent[n - 1], packets[n - 1], arena.stored);
      b := BlobOf(d);
      if packets[n - 1].bytes != [] {
        assert Stored(b, packets[n - 1].bytes) in arena.stored;
        assert forall s :: s in arena.stored ==> Holds(arena.data[..], arena.reserved, s);
      }
    }
  }

  datatype Received = Got(meta: Payload, bytes: seq<Byte>) | Empty | TooSmall(required: nat)

  class BlobConsumer {
    const channel: Channel
    var cursor: nat
    var lappedTotal: nat

    ghost predicate Valid()
      reads this, channel, channel.ring, channel.ring.words, channel.ring.data, channel.arena, channel.arena.data
    {
      channel.Valid() && cursor >= 1
    }

    constructor (channel: Channel)
      requires channel.Valid()
      ensures Valid() && this.channel == channel && lappedTotal == 0
      ensures cursor == OldestRetained(channel.ring.writeSeq, channel.ring.words.Length)
    {
      this.channel, lappedTotal := channel, 0;
      cursor := OldestRetained(channel.ring.writeSeq, channel.ring.words.Length);
    }
  
    method SkipOverwritten(seen: nat) returns (skipped: nat)
      requires Valid()
      modifies this
      ensures Valid() && skipped == cursor - old(cursor) && lappedTotal == old(lappedTotal) + skipped
      ensures cursor == Max(old(cursor), OldestRetained(Max(channel.ring.writeSeq, seen), channel.ring.words.Length))
    {
      var oldest := OldestRetained(Max(channel.ring.writeSeq, seen), channel.ring.words.Length);
      skipped := 0;
      if oldest > cursor {
        skipped := oldest - cursor;
        cursor := oldest;
        lappedTotal := lappedTotal + skipped;
      }
    }

    method SkipCurrent()
      requires Valid()
      modifies this
      ensures Valid() && cursor == old(cursor) + 1 && lappedTotal == old(lappedTotal) + 1
    {
      cursor := cursor + 1;
      lappedTotal := lappedTotal + 1;
    }

    /** One message read from its slot: skipped if its blob is lapped, left if it does not fit,
        returned otherwise. */
    method Offer(d: Payload, room: nat) returns (r: Option<Received>)
      requires Valid() && cursor <= |channel.ring.sent| && d == channel.ring.sent[cursor - 1]
      modifies this
      ensures IsDescriptor(d) && old(cursor) <= |channel.packets|
      ensures LappedAt(channel.ring.sent, old(cursor), channel.arena.reserved, channel.arena.data.Length) ==>
                r == None && cursor == old(cursor) + 1 && lappedTotal == old(lappedTotal) + 1
      ensures !LappedAt(channel.ring.sent, old(cursor), channel.arena.reserved, channel.arena.data.Length) ==>
                && lappedTotal == old(lappedTotal)
                && var p := channel.packets[old(cursor) - 1];
                if |p.bytes| > room then r == Some(TooSmall(|p.bytes|)) && cursor == old(cursor)
                else r == Some(Got(p.meta, p.bytes)) && cursor == old(cursor) + 1
    {
      var b := channel.BlobAt(cursor, d);
      if !InBounds(b, channel.arena.data.Length) || IsLapped(channel.arena.reserved, b, channel.arena.data.Length) {
        SkipCurrent();
        return None;
      }
      if b.len > room { return Some(TooSmall(b.len)); }
      // The second look of the code finds what the first did: nobody writes meanwhile.
      var fetched := channel.arena.ReadBlob(b, room);
      cursor := cursor + 1;
      r := Some(Got(MetaOf(d), fetched.bytes));
    }

    /** Where the next message to return lies, or the sequence after the last. */
    ghost function Next(): nat
      requires channel.Valid() && cursor >= 1
      reads this, channel, channel.ring, channel.ring.words, channel.ring.data, channel.arena, channel.arena.data
    {
      FirstWhole(channel.ring.sent, From(cursor, |channel.ring.sent|, channel.ring.words.Length),
                 channel.arena.reserved, channel.arena.data.Length)
    }

    /** What receiving message `m`, or finding none, leaves: the result and the cursor. */
    ghost predicate Concluded(m: nat, room: nat, r: Received)
      reads this, channel
    {
      if m > |channel.packets| || m == 0 then r == Empty && cursor == m
      else
        var p := channel.packets[m - 1];
        if |p.bytes| > room then r == TooSmall(|p.bytes|) && cursor == m
        else r == Got(p.meta, p.bytes) && cursor == m + 1
    }

    /** One round of the receive loop. */
    method Round(room: nat) returns (done: Option<Received>, skipped: nat)
      requires Valid()
      modifies this
      ensures Valid() && lappedTotal == old(lappedTotal) + skipped
      ensures done.None? ==> skipped > 0 && cursor == old(cursor) + skipped <= Next() && Next() == old(Next())
      ensures done.Some? ==> skipped == 0 && old(Next()) == old(cursor) && Concluded(old(Next()), room, done.value)
    {
      skipped := 0;
      var read := channel.ring.ReadSlot(cursor);
      StayOrAdvance(channel.ring.sent, cursor, channel.arena.reserved, channel.ring.words.Length, channel.arena.data.Length);
      match read
      case Found(d) =>
        done := Offer(d, room);
        skipped := if done.None? then 1 else 0;
      case NotYet => done := Some(Empty);
      case Overrun(seen) =>
        skipped := SkipOverwritten(seen);
        done := if skipped == 0 then Some(Empty) else None;
    }

    /** The next message that is still in the ring and whose blob does not count as lapped, with its
        payload as it was pushed; everything before it is skipped and counted. One that does not fit
        the caller's buffer stays. */
    method NextBlob(room: nat) returns (r: Received, skipped: nat)
      requires Valid()
      modifies this
      ensures Valid() && skipped == old(Next()) - old(cursor) && lappedTotal == old(lappedTotal) + skipped
      ensures Concluded(old(Next()), room, r)
    {
      var done, more := Round(room);
      skipped := more;
      while done.None?
        invariant Valid() && lappedTotal == old(lappedTotal) + skipped
        invariant done.None? ==> cursor == old(cursor) + skipped <= Next() && Next() == old(Next())
        invariant done.Some? ==> skipped == old(Next()) - old(cursor) && Concluded(old(Next()), room, done.value)
        decreases if done.None? then 1 + old(Next()) - cursor else 0
      {
        done, more := Round(room);
        skipped := skipped + more;
      }
      r := done.value;
    }
  }
}
