/** The single-producer ring as its owner and a consumer work on it between each other's actions:
    slots written in place, a cached gate, and the consumer's receive loops. */
module Spmc {
  import opened Basics
  import opened Modular
  import opened SlotProtocol
  import opened Lossless
  import opened Backpressure
  import opened Registry
  import C = Consumer

  type Payload = seq<int>

  // ------------------------------------------------------------------ what the slots hold

  /** Slot `i` holds the newest message that belongs there. */
  predicate HoldsNewest(words: seq<Word>, data: seq<Payload>, sent: seq<Payload>, i: nat)
    requires i < |words| == |data|
  {
    words[i].Seq? &&
    var n := words[i].n;
    && n <= |sent| < n + |words|
    && (n != 0 ==> Ix(n, |words|) == i && data[i] == sent[n - 1])
    && (n == 0 ==> forall m :: 1 <= m <= |sent| ==> Ix(m, |words|) != i)
  }

  predicate Retains(words: seq<Word>, data: seq<Payload>, sent: seq<Payload>) {
    |words| == |data| >= 1 && forall i :: 0 <= i < |words| ==> HoldsNewest(words, data, sent, i)
  }

  /** What the slot of message `want` tells: it holds it, or nothing that new, or something a full
      ring newer. */
  lemma SlotTells(words: seq<Word>, data: seq<Payload>, sent: seq<Payload>, want: nat)
    requires Retains(words, data, sent) && want >= 1
    ensures var i := Ix(want, |words|);
            && words[i].Seq?
            && (want <= |sent| < want + |words| ==> words[i].n == want && data[i] == sent[want - 1])
            && (want > |sent| ==> words[i].n < want)
            && (want + |words| <= |sent| ==> want + |words| <= words[i].n <= |sent|)
  {
    var i := Ix(want, |words|);
    assert HoldsNewest(words, data, sent, i);
    var n := words[i].n;
    if n != 0 && n < want { SameRemainder(want, n, |words|); }
    if n > want { SameRemainder(n, want, |words|); }
  }

  /** A slot that has held nothing lies beyond the next message too. */
  lemma EmptySlotIsAhead(words: seq<Word>, data: seq<Payload>, sent: seq<Payload>, j: nat)
    requires |words| == |data| && j < |words| && HoldsNewest(words, data, sent, j) && words[j].n == 0
    requires j != Ix(|sent| + 1, |words|)
    ensures |sent| + 1 < |words|
  {
    var cap := |words|;
    if |sent| + 1 == cap {
      assert Ix(cap, cap) == Ix(0, cap) == 0;
      assert Ix(j, cap) == j;
    }
  }

  /** The message a full ring behind the next one shares its slot. */
  lemma FullSlotIsRecent(words: seq<Word>, data: seq<Payload>, sent: seq<Payload>, j: nat)
    requires |words| == |data| && j < |words| && HoldsNewest(words, data, sent, j) && words[j].n != 0
    requires j != Ix(|sent| + 1, |words|)
    ensures |sent| + 1 < words[j].n + |words|
  {
    assert Ix(words[j].n + |words|, |words|) == Ix(words[j].n, |words|);
  }

  lemma OthersHold(words: seq<Word>, data: seq<Payload>, sent: seq<Payload>, item: Payload, j: nat)
    requires Retains(words, data, sent) && j < |words| && j != Ix(|sent| + 1, |words|)
    ensures HoldsNewest(words[Ix(|sent| + 1, |words|) := Seq(|sent| + 1)],
                        data[Ix(|sent| + 1, |words|) := item], sent + [item], j)
  {
    assert HoldsNewest(words, data, sent, j);
    if words[j].n == 0 { EmptySlotIsAhead(words, data, sent, j); } else { FullSlotIsRecent(words, data, sent, j); }
  }

  /** Writing the next message into its slot retains it and drops only the one a full ring older. */
  lemma WriteRetains(words: seq<Word>, data: seq<Payload>, sent: seq<Payload>, item: Payload)
    requires Retains(words, data, sent)
    ensures Retains(words[Ix(|sent| + 1, |words|) := Seq(|sent| + 1)],
                    data[Ix(|sent| + 1, |words|) := item], sent + [item])
  {
    var i, sent' := Ix(|sent| + 1, |words|), sent + [item];
    var words', data' := words[i := Seq(|sent| + 1)], data[i := item];
    forall j | 0 <= j < |words| ensures HoldsNewest(words', data', sent', j) {
      if j != i { OthersHold(words, data, sent, item, j); }
    }
  }

  datatype SlotRead = Found(item: Payload) | NotYet | Overrun(seen: nat)

  class Ring {
    const words: array<Word>
    const data: array<Payload>
    var writeSeq: nat
    /** Everything ever written: message `n` is `sent[n - 1]`. */
    ghost var sent: seq<Payload>

    ghost predicate Valid()
      reads this, words, data
    {
      Retains(words[..], data[..], sent) && writeSeq <= |sent|
    }

    constructor (cap: nat, blank: Payload)
      requires cap >= 1
      ensures Valid() && fresh(words) && fresh(data) && words.Length == cap && sent == [] && writeSeq == 0
    {
      words := new Word[cap](_ => Seq(0));
      data := new Payload[cap](_ => blank);
      writeSeq, sent := 0, [];
      new;
      assert forall i :: 0 <= i < cap ==> words[..][i] == Seq(0);
    }

    /** The slot protocol's writing half. */
    method WriteSlot(seq_: nat, item: Payload)
      requires Valid() && seq_ == |sent| + 1
      modifies this`sent, words, data
      ensures Valid() && sent == old(sent) + [item]
    {
      var i := Ix(seq_, words.Length);
      WriteRetains(words[..], data[..], sent, item);
      words[i] := Writing;
      data[i] := item;
      words[i] := Seq(seq_);
      sent := sent + [item];
      assert words[..] == old(words[..])[i := Seq(seq_)];
    }

    /** The reading half, with no writer at work. */
    method ReadSlot(want: nat) returns (r: SlotRead)
      requires Valid() && want >= 1
      ensures r.Found? <==> want <= |sent| < want + words.Length
      ensures r.Found? ==> r.item == sent[want - 1]
      ensures r.NotYet? <==> want > |sent|
      ensures r.Overrun? ==> want + words.Length <= r.seen <= |sent|
    {
      SlotTells(words[..], data[..], sent, want);
      var i := Ix(want, words.Length);
      var word := words[i];
      if word == Seq(want) {
        r := Found(data[i]);
      } else if word.Writing? || word.n < want {
        r := NotYet;
      } else {
        r := Overrun(word.n);
      }
    }
  }

  // ------------------------------------------------------------------ the producer

  class RingProducer {
    const ring: Ring
    const registry: ReaderRegistry
    const lossless: bool
    var next: nat
    var gateLimit: nat
    var blockedPolls: nat

    ghost predicate Valid()
      reads this, ring, ring.words, ring.data
    {
      ring.Valid() && next == |ring.sent| + 1
    }

    constructor (ring: Ring, registry: ReaderRegistry, lossless: bool)
      requires ring.Valid() && ring.sent == []
      ensures Valid() && this.ring == ring && this.registry == registry && this.lossless == lossless
      ensures gateLimit == 0 && blockedPolls == 0
    {
      this.ring, this.registry, this.lossless := ring, registry, lossless;
      next, gateLimit, blockedPolls := 1, 0, 0;
    }

    method RefreshGate() returns (open: bool)
      requires Valid()
      modifies this`gateLimit
      ensures Valid() && open == (next < gateLimit)
      ensures GateFrom(registry.slots[..], gateLimit, next, ring.words.Length)
      ensures open <==> forall i :: 0 <= i < registry.slots.Length && Active(registry.slots[i]) ==>
                          next < registry.slots[i].cursor + ring.words.Length
    {
      var window := if ring.words.Length / 2 >= 1 then ring.words.Length / 2 else 1;
      var min := registry.MinCursor();
      gateLimit := next + window;
      ghost var slots := registry.slots[..];
      assert slots == registry.slots[..];
      if min.Some? && min.value + ring.words.Length < gateLimit { gateLimit := min.value + ring.words.Length; }
      open := next < gateLimit;
    }

    method WriteOne(item: Payload)
      requires Valid()
      modifies this`next, ring`sent, ring.words, ring.data
      ensures Valid() && ring.sent == old(ring.sent) + [item]
    {
      ring.WriteSlot(next, item);
      next := next + 1;
    }

    method PublishProgress()
      requires Valid()
      modifies ring`writeSeq
      ensures Valid() && ring.writeSeq == |ring.sent|
    {
      ring.writeSeq := next - 1;
    }

    /** Below the cached gate a message is written unseen; at it the registry decides: the push fails,
        writing nothing, exactly when some active reader would lose a message, dead processes having
        been released first at every 1024th failure. */
    method TryPush(item: Payload, dead: set<nat>) returns (ok: bool)
      requires Valid() && 0 !in dead
      modifies this, ring, ring.words, ring.data, registry.slots
      ensures Valid()
      ensures ring.sent == if ok then old(ring.sent) + [item] else old(ring.sent)
      ensures ok ==> ring.writeSeq == |ring.sent|
      ensures !ok ==> lossless && old(next) >= old(gateLimit) && ring.writeSeq == old(ring.writeSeq)
      ensures !ok ==> exists i :: 0 <= i < registry.slots.Length && Active(old(registry.slots[i]))
                                  && old(next) >= old(registry.slots[i]).cursor + ring.words.Length
      ensures ok && lossless && old(next) >= old(gateLimit) ==>
                GateFrom(registry.slots[..], gateLimit, old(next), ring.words.Length) && old(next) < gateLimit
      ensures ok && lossless && old(next) >= old(gateLimit) ==>
                forall i :: 0 <= i < registry.slots.Length && Active(registry.slots[i]) ==>
                  |ring.sent| < registry.slots[i].cursor + ring.words.Length
      ensures !ok ==> blockedPolls == (old(blockedPolls) + 1) % 0x1_0000_0000
      ensures !ok && blockedPolls % 1024 == 0 ==>
                && registry.slots[..] == Pruned(old(registry.slots[..]), dead)
                && exists i :: 0 <= i < registry.slots.Length && Active(registry.slots[i])
                               && old(next) >= registry.slots[i].cursor + ring.words.Length
      ensures ok && blockedPolls != old(blockedPolls) ==>
                blockedPolls == (old(blockedPolls) + 1) % 0x1_0000_0000 && blockedPolls % 1024 == 0
      ensures registry.slots[..] == old(registry.slots[..])
              || (registry.slots[..] == Pruned(old(registry.slots[..]), dead) && blockedPolls % 1024 == 0)
      ensures old(next) < old(gateLimit) || !lossless ==>
                ok && gateLimit == old(gateLimit) && blockedPolls == old(blockedPolls)
                && registry.slots[..] == old(registry.slots[..])
    {
      if lossless && next >= gateLimit {
        var open := RefreshGate();
        if !open {
          blockedPolls := (blockedPolls + 1) % 0x1_0000_0000;
          if blockedPolls % 1024 != 0 { return false; }
          var pruned := registry.PruneDeadReaders(dead);
          if pruned == 0 { return false; }
          open := RefreshGate();
          if !open { return false; }
        }
      }
      WriteOne(item);
      PublishProgress();
      ok := true;
    }

    /** A batch that need not wait, for every item lies below the gate or there is none: all of it is
        written in order and announced at the end. */
    method PushBatch(items: seq<Payload>)
      requires Valid() && (!lossless || next + |items| <= gateLimit)
      modifies this`next, ring, ring.words, ring.data
      ensures Valid() && ring.sent == old(ring.sent) + items
      ensures items != [] ==> ring.writeSeq == |ring.sent|
      ensures items == [] ==> ring.writeSeq == old(ring.writeSeq)
    {
      if items == [] { return; }
      var k := 0;
      while k < |items|
        invariant 0 <= k <= |items| && Valid() && ring.sent == old(ring.sent) + items[..k]
        invariant !lossless || next + (|items| - k) <= gateLimit
      {
        assert lossless ==> next < gateLimit;
        WriteOne(items[k]);
        k := k + 1;
      }
      PublishProgress();
    }
  }

  // ------------------------------------------------------------------ the consumer

  /** Where a receive finds its first message: at the cursor, or else at the oldest one that is not
      overwritten. */
  function From(cursor: nat, sent: nat, cap: nat): (f: nat)
    requires cap >= 1
    ensures sent < f + cap && (f == cursor || (f > cursor && (f == 1 || sent == f - 1 + cap)))
  {
    Max(cursor, OldestRetained(sent, cap))
  }

  class RingConsumer {
    const ring: Ring
    var cursor: nat
    var lappedTotal: nat

    ghost predicate Valid()
      reads this, ring, ring.words, ring.data
    {
      ring.Valid() && cursor >= 1
    }

    constructor (ring: Ring, mode: C.StartMode)
      requires ring.Valid()
      ensures Valid() && this.ring == ring
      ensures C.Places(mode, ring.writeSeq, ring.words.Length, cursor, lappedTotal)
    {
      var (start, taken) := C.Resolve(mode, ring.writeSeq, ring.words.Length);
      this.ring, cursor, lappedTotal := ring, taken, taken - start;
      C.ResolvePlaces(mode, ring.writeSeq, ring.words.Length);
    }

    method SkipOverwritten(seen: nat) returns (skipped: nat)
      requires Valid()
      modifies this
      ensures Valid() && skipped == cursor - old(cursor) && lappedTotal == old(lappedTotal) + skipped
      ensures cursor == Max(old(cursor), OldestRetained(Max(ring.writeSeq, seen), ring.words.Length))
    {
      var oldest := OldestRetained(Max(ring.writeSeq, seen), ring.words.Length);
      skipped := 0;
      if oldest > cursor {
        skipped := oldest - cursor;
        cursor := oldest;
        lappedTotal := lappedTotal + skipped;
      }
    }

    /** The next message still in the ring, however far announcements lag behind; everything skipped
        to get there was overwritten and is counted. */
    method NextItem() returns (item: Option<Payload>, skipped: nat)
      requires Valid()
      modifies this
      ensures Valid() && lappedTotal == old(lappedTotal) + skipped
      ensures var from := From(old(cursor), |ring.sent|, ring.words.Length);
              && skipped == from - old(cursor)
              && (from <= |ring.sent| ==> item == Some(ring.sent[from - 1]) && cursor == from + 1)
              && (from > |ring.sent| ==> item == None && cursor == from)
    {
      skipped := 0;
      while true
        invariant Valid() && old(cursor) <= cursor <= From(old(cursor), |ring.sent|, ring.words.Length)
        invariant skipped == cursor - old(cursor) && lappedTotal == old(lappedTotal) + skipped
        decreases From(old(cursor), |ring.sent|, ring.words.Length) - cursor
      {
        var r := ring.ReadSlot(cursor);
        match r
        case Found(x) =>
          cursor := cursor + 1;
          return Some(x), skipped;
        case NotYet => return None, skipped;
        case Overrun(seen) =>
          var more := SkipOverwritten(seen);
          if more == 0 { return None, skipped; }
          skipped := skipped + more;
      }
    }

    /** Fills the buffer with consecutive messages from the oldest one retained at or after the
        cursor, as many as there are and fit. */
    method RecvBatch(buf: array<Payload>) returns (count: nat)
      requires Valid() && buf != ring.data
      modifies this, buf
      ensures Valid() && count <= buf.Length
      ensures var from := From(old(cursor), |ring.sent|, ring.words.Length);
              && count == Min(buf.Length, if from <= |ring.sent| then |ring.sent| + 1 - from else 0)
              && (buf.Length > 0 ==> cursor == from + count && lappedTotal == old(lappedTotal) + (from - old(cursor)))
              && (buf.Length == 0 ==> cursor == old(cursor) && lappedTotal == old(lappedTotal))
              && forall k :: 0 <= k < count ==> buf[k] == ring.sent[from - 1 + k]
      ensures forall k :: count <= k < buf.Length ==> buf[k] == old(buf[k])
    {
      count := 0;
      ghost var from := From(cursor, |ring.sent|, ring.words.Length);
      while count < buf.Length
        invariant Valid() && count <= buf.Length
        invariant count == 0 ==> cursor == old(cursor) && lappedTotal == old(lappedTotal)
        invariant count > 0 ==> cursor == from + count <= |ring.sent| + 1
                                && lappedTotal == old(lappedTotal) + (from - old(cursor))
        invariant forall k :: 0 <= k < count ==> buf[k] == ring.sent[from - 1 + k]
        invariant forall k :: count <= k < buf.Length ==> buf[k] == old(buf[k])
        decreases buf.Length - count
      {
        var item, _ := NextItem();
        match item
        case None => return;
        case Some(x) =>
          buf[count] := x;
          count := count + 1;
      }
    }
  }
}
