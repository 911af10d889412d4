/** What a mirror does with payloads that are what the source encoded: it writes exactly the
    source's records, in order and without a hole between its old and its new position. */
module Faithful {
  import opened Basics
  import opened Wire
  import opened Mirror

  function Slice(pushed: seq<Record>, s: nat, n: nat): seq<Record>
    requires 1 <= s && s - 1 + n <= |pushed|
  {
    pushed[s - 1..s - 1 + n]
  }

  /** The log entries for sequences `a..b`. */
  function Entries(pushed: seq<Record>, a: nat, b: nat): (es: seq<Written>)
    requires 1 <= a <= b && (a < b ==> b - 1 <= |pushed|)
    ensures |es| == b - a
    ensures forall i :: 0 <= i < |es| ==> es[i] == Written(a + i, pushed[a + i - 1])
  {
    seq(b - a, i requires 0 <= i < b - a => Written(a + i, pushed[a + i - 1]))
  }

  lemma EntriesJoin(pushed: seq<Record>, a: nat, b: nat, c: nat)
    requires 1 <= a <= b <= c && (a < c ==> c - 1 <= |pushed|)
    ensures Entries(pushed, a, b) + Entries(pushed, b, c) == Entries(pushed, a, c)
  {
  }

  /** `m'` has written every record from `m`'s position to its own. */
  predicate Grown(pushed: seq<Record>, m: State, m': State) {
    && 1 <= m.next <= m'.next && (m.next < m'.next ==> m'.next - 1 <= |pushed|)
    && m'.log == m.log + Entries(pushed, m.next, m'.next)
  }

  lemma GrownTransitive(pushed: seq<Record>, a: State, b: State, c: State)
    requires Grown(pushed, a, b) && Grown(pushed, b, c)
    ensures Grown(pushed, a, c)
  {
    EntriesJoin(pushed, a.next, b.next, c.next);
    assert c.log == a.log + (Entries(pushed, a.next, b.next) + Entries(pushed, b.next, c.next));
  }

  lemma GrownReflexive(pushed: seq<Record>, m: State, m': State)
    requires m.next >= 1 && m'.next == m.next && m'.log == m.log
    ensures Grown(pushed, m, m')
  {
    assert Entries(pushed, m.next, m.next) == [];
  }

  predicate ParkedHonest(pushed: seq<Record>, s: nat, p: Parked) {
    1 <= s && 1 <= p.count && s - 1 + p.count <= |pushed|
    && p.bytes == EncodeRecords(Slice(pushed, s, p.count))
  }

  predicate PendingHonest(pushed: seq<Record>, m: State) {
    forall s :: s in m.pending ==> ParkedHonest(pushed, s, m.pending[s])
  }

  lemma ParseStep(g: Geometry, r: Record, rest: seq<Byte>)
    requires GeometryOk(g) && RecordOk(g, r)
    ensures var bytes := r.descriptor + r.blob + rest;
            && g.payloadLen <= |bytes| && bytes[..g.payloadLen] == r.descriptor
            && |r.blob| <= |bytes[g.payloadLen..]|
            && bytes[g.payloadLen..][..|r.blob|] == r.blob
            && bytes[g.payloadLen..][|r.blob|..] == rest
            && (if g.hasArena then BlobLen(r.descriptor) == |r.blob| else |r.blob| == 0)
  {
    assert (r.descriptor + r.blob + rest)[g.payloadLen..] == r.blob + rest;
  }

  function WriteOne(m: State, floor: nat, s: nat, r: Record): State {
    if s >= floor then Append(m, s, r) else m
  }

  lemma AllWrittenStep(g: Geometry, m: State, floor: nat, s: nat, n: nat, r: Record, rest: seq<Byte>)
    requires GeometryOk(g) && RecordOk(g, r) && n >= 1
    ensures AllWritten(g, m, floor, s, n, r.descriptor + r.blob + rest)
         == AllWritten(g, WriteOne(m, floor, s, r), floor, s + 1, n - 1, rest)
  {
    ParseStep(g, r, rest);
  }

  function Grow(pushed: seq<Record>, m: State, next: nat): State
    requires 1 <= m.next <= next && (m.next < next ==> next - 1 <= |pushed|)
  {
    m.(next := next, log := m.log + Entries(pushed, m.next, next))
  }

  lemma GrowOne(pushed: seq<Record>, m: State, next: nat)
    requires 1 <= m.next < next && next - 1 <= |pushed|
    ensures Grow(pushed, Append(m, m.next, pushed[m.next - 1]), next) == Grow(pushed, m, next)
  {
    var m' := Append(m, m.next, pushed[m.next - 1]);
    assert [Written(m.next, pushed[m.next - 1])] + Entries(pushed, m.next + 1, next) == Entries(pushed, m.next, next);
    assert m'.log + Entries(pushed, m'.next, next)
        == m.log + ([Written(m.next, pushed[m.next - 1])] + Entries(pushed, m.next + 1, next));
  }

  lemma EncodeSlice(pushed: seq<Record>, s: nat, n: nat)
    requires 1 <= s && 1 <= n && s - 1 + n <= |pushed|
    ensures EncodeRecords(Slice(pushed, s, n))
         == pushed[s - 1].descriptor + pushed[s - 1].blob + EncodeRecords(Slice(pushed, s + 1, n - 1))
  {
    assert Slice(pushed, s, n)[1..] == Slice(pushed, s + 1, n - 1);
  }

  lemma GrowFirst(pushed: seq<Record>, m: State, floor: nat, s: nat, n: nat)
    requires 1 <= s && 1 <= n && s - 1 + n <= |pushed| && floor >= 1 && m.next == Max(floor, s)
    ensures var w := WriteOne(m, floor, s, pushed[s - 1]);
            w.next == Max(floor, s + 1) && Grow(pushed, w, Max(floor, s + n)) == Grow(pushed, m, Max(floor, s + n))
  {
    if s >= floor { GrowOne(pushed, m, s + n); }
  }

  lemma {:induction false} AllWrittenHonest(g: Geometry, pushed: seq<Record>, m: State, floor: nat, s: nat, n: nat)
    requires GeometryOk(g) && RecordsOk(g, pushed)
    requires 1 <= s && s - 1 + n <= |pushed| && floor >= 1 && m.next == Max(floor, s)
    ensures AllWritten(g, m, floor, s, n, EncodeRecords(Slice(pushed, s, n))) == Grow(pushed, m, Max(floor, s + n))
    decreases n
  {
    if n == 0 {
      assert m.log + Entries(pushed, m.next, m.next) == m.log;
    } else {
      var w := WriteOne(m, floor, s, pushed[s - 1]);
      GrowFirst(pushed, m, floor, s, n);
      EncodeSlice(pushed, s, n);
      AllWrittenStep(g, m, floor, s, n, pushed[s - 1], EncodeRecords(Slice(pushed, s + 1, n - 1)));
      AllWrittenHonest(g, pushed, w, floor, s + 1, n - 1);
    }
  }

  lemma RecordsWrittenHonest(g: Geometry, pushed: seq<Record>, m: State, s: nat, n: nat)
    requires GeometryOk(g) && RecordsOk(g, pushed) && Positive(m)
    requires 1 <= n && 1 <= s <= m.next && s - 1 + n <= |pushed|
    ensures var w := RecordsWritten(g, m, s, n, EncodeRecords(Slice(pushed, s, n)));
            !w.failed && Grown(pushed, m, w) && w.pending == m.pending && w.next == Max(m.next, s + n)
            && Positive(w) && w.published == w.next - 1
  {
    AllWrittenHonest(g, pushed, m, m.next, s, n);
  }

  lemma RoundHonest(g: Geometry, pushed: seq<Record>, m: State, expired: bool)
    requires GeometryOk(g) && RecordsOk(g, pushed) && Positive(m) && PendingHonest(pushed, m)
    ensures var r := Round(g, m, expired).0;
            !r.failed && Grown(pushed, m, r) && PendingHonest(pushed, r)
  {
    var m1 := DropSatisfied(m);
    if m1.pending.Keys == {} {
      GrownReflexive(pushed, m, m1);
    } else {
      var s := FirstKey(m1.pending.Keys);
      var parked := m1.pending[s];
      assert ParkedHonest(pushed, s, parked);
      var m2 := m1.(pending := m1.pending - {s});
      if s + parked.count <= m2.next {
        GrownReflexive(pushed, m, m2);
      } else if s > m2.next {
        GrownReflexive(pushed, m, Requested(m1, m1.next, s - 1, expired));
      } else {
        RecordsWrittenHonest(g, pushed, m2, s, parked.count);
      }
    }
  }

  lemma {:induction false} AdvancedHonest(g: Geometry, pushed: seq<Record>, m: State, expired: bool)
    requires GeometryOk(g) && RecordsOk(g, pushed) && Positive(m) && PendingHonest(pushed, m)
    ensures var r := Advanced(g, m, expired);
            !r.failed && Grown(pushed, m, r) && PendingHonest(pushed, r)
    decreases |m.pending|
  {
    RoundHonest(g, pushed, m, expired);
    var r := Round(g, m, expired);
    if !r.1 {
      RoundCovers(g, m, expired);
      AdvancedHonest(g, pushed, r.0, expired);
      GrownTransitive(pushed, m, r.0, Advanced(g, r.0, expired));
    }
  }

  lemma AppliedHonest(g: Geometry, pushed: seq<Record>, m: State, s: nat, n: nat, expired: bool)
    requires GeometryOk(g) && RecordsOk(g, pushed) && Positive(m) && PendingHonest(pushed, m)
    requires 1 <= n && 1 <= s && s - 1 + n <= |pushed|
    ensures var r := Applied(g, m, s, n, EncodeRecords(Slice(pushed, s, n)), expired);
            !r.failed && Grown(pushed, m, r) && PendingHonest(pushed, r)
  {
    var bytes := EncodeRecords(Slice(pushed, s, n));
    if s + n <= m.next {
      GrownReflexive(pushed, m, m);
    } else if s > m.next {
      var p := Park(m, s, n, bytes);
      assert ParkedHonest(pushed, s, Parked(n, bytes));
      GrownReflexive(pushed, m, Requested(p, m.next, s - 1, expired));
    } else {
      RecordsWrittenHonest(g, pushed, m, s, n);
      var w := RecordsWritten(g, m, s, n, bytes);
      AdvancedHonest(g, pushed, w, expired);
      GrownTransitive(pushed, m, w, Advanced(g, w, expired));
    }
  }
}
