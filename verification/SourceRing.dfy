/** What replication relies on in the source ring: a dense single-producer ring whose readers
    see each record whole or learn that it is not there yet or gone. */
module SourceRing {
  import opened Basics
  import opened Wire

  /** `pushed[n - 1]` is message `n`. The slot of message `begun` was the last one claimed for
      writing; `writeSeq` is what the header announces; the blobs of the `lapped` messages have
      been reserved over in the arena. */
  datatype Source = Source(cap: nat, pushed: seq<Record>, begun: nat, writeSeq: nat, lapped: set<nat>)

  /** A record that fits the 32-bit frame length even behind a full byte budget. */
  predicate Framable(r: Record) { TCP_FRAME_BYTES + |r.descriptor| + |r.blob| < 0x1_0000_0000 }

  predicate SourceOk(g: Geometry, s: Source) {
    && GeometryOk(g) && s.cap >= 1
    && |s.pushed| <= s.begun <= |s.pushed| + 1
    && s.writeSeq <= |s.pushed|
    && |s.pushed| + 2 < 0x1_0000_0000_0000_0000
    && RecordsOk(g, s.pushed) && forall i :: 0 <= i < |s.pushed| ==> Framable(s.pushed[i])
  }

  datatype ProducerStep = Begin | Finish(record: Record) | Publish | Lap(more: set<nat>)

  /** One action of the producer: claim the next slot, store its sequence, announce what is
      written, or reserve arena bytes over older blobs. The sequence space is not exhausted. */
  predicate Produces(g: Geometry, s: Source, s': Source, step: ProducerStep)
    requires GeometryOk(g)
  {
    match step
    case Begin => s.begun == |s.pushed| && s' == s.(begun := s.begun + 1)
    case Finish(r) =>
      && s.begun == |s.pushed| + 1 && RecordOk(g, r) && Framable(r)
      && |s.pushed| + 3 < 0x1_0000_0000_0000_0000
      && s' == s.(pushed := s.pushed + [r])
    case Publish => s' == s.(writeSeq := |s.pushed|)
    case Lap(more) => s' == s.(lapped := s.lapped + more)
  }

  predicate Evolves(s: Source, s': Source) {
    s.cap == s'.cap && s.pushed <= s'.pushed && s.begun <= s'.begun && s.writeSeq <= s'.writeSeq
    && s.lapped <= s'.lapped
  }

  /** Message `n` can no longer be recovered from the ring. */
  predicate Gone(s: Source, n: nat) { n >= 1 && (n + s.cap <= s.begun || n in s.lapped) }

  predicate AllGone(s: Source, a: nat, b: nat) { forall n :: a <= n < b ==> Gone(s, n) }

  /** What reading message `want` may return when it completes in state `s`. */
  predicate ReadOk(s: Source, want: nat, res: RawRead) {
    match res
    case Item(r) => 1 <= want <= |s.pushed| && r == s.pushed[want - 1]
    case Pending => want > |s.pushed| || want + s.cap <= s.begun
    case Overwritten(seen) => want >= 1 && want + s.cap <= s.begun && seen <= |s.pushed|
    case Lost => 1 <= want <= |s.pushed| && want in s.lapped
  }

  lemma ProducesKeepsOk(g: Geometry, s: Source, s': Source, step: ProducerStep)
    requires SourceOk(g, s) && Produces(g, s, s', step)
    ensures SourceOk(g, s') && Evolves(s, s')
  {
  }

  /** A lapped reader resynchronises past nothing that is still there. */
  lemma ResyncSkipsOnlyGone(g: Geometry, s: Source, cursor: nat, seen: nat)
    requires SourceOk(g, s) && cursor >= 1 && seen <= |s.pushed|
    ensures var r := OldestRetained(Max(s.writeSeq, seen), s.cap);
            AllGone(s, cursor, r) && r <= |s.pushed| + 1
  {
  }
}
