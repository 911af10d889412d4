/** The balance every mirror keeps: each sequence from the one it joined at up to its write
    position was either written, once, or given up after the source had lost it. */
module Account {
  import opened Basics
  import opened Wire
  import opened SourceRing
  import opened Mirror
  import opened Faithful
  import opened Stream

  predicate Increasing(log: seq<Written>) {
    forall i, j :: 0 <= i < j < |log| ==> log[i].seq_ < log[j].seq_
  }

  predicate LogTrue(pushed: seq<Record>, log: seq<Written>) {
    forall i :: 0 <= i < |log| ==> 1 <= log[i].seq_ <= |pushed| && log[i].record == pushed[log[i].seq_ - 1]
  }

  function LogSeqs(log: seq<Written>): set<nat> { set w | w in log :: w.seq_ }

  /** Sequences `a..b`, each with the source as it was when they were given up. */
  function Snapshots(a: nat, b: nat, at: Source): map<nat, Source> { map n | n in Range(a, b) :: at }

  predicate SkipsTrue(src: Source, skipped: map<nat, Source>) {
    forall n :: n in skipped ==> Gone(skipped[n], n) && Evolves(skipped[n], src)
  }

  predicate Accounted(src: Source, first: nat, m: State, skipped: map<nat, Source>) {
    && 1 <= first <= m.next
    && Increasing(m.log) && LogTrue(src.pushed, m.log)
    && SkipsTrue(src, skipped)
    && LogSeqs(m.log) !! skipped.Keys
    && LogSeqs(m.log) + skipped.Keys == Range(first, m.next)
  }

  lemma EntriesSeqs(log: seq<Written>, pushed: seq<Record>, a: nat, b: nat)
    requires 1 <= a <= b && (a < b ==> b - 1 <= |pushed|)
    ensures LogSeqs(log + Entries(pushed, a, b)) == LogSeqs(log) + Range(a, b)
  {
    var es := Entries(pushed, a, b);
    forall n | n in Range(a, b) ensures n in LogSeqs(log + es) {
      assert (log + es)[|log| + (n - a)] == es[n - a];
      assert es[n - a] in log + es;
    }
  }

  lemma LogGrows(log: seq<Written>, pushed: seq<Record>, first: nat, p: nat, a: nat, b: nat)
    requires Increasing(log) && LogTrue(pushed, log) && LogSeqs(log) <= Range(first, p)
    requires 1 <= p <= a <= b && (a < b ==> b - 1 <= |pushed|)
    ensures Increasing(log + Entries(pushed, a, b)) && LogTrue(pushed, log + Entries(pushed, a, b))
  {
    forall i | 0 <= i < |log| ensures log[i].seq_ < p { assert log[i].seq_ in LogSeqs(log); }
  }

  lemma RangeSplits(a: nat, b: nat, c: nat, d: nat)
    requires a <= b <= c <= d
    ensures Range(a, d) == Range(a, b) + Range(b, c) + Range(c, d)
    ensures Range(a, b) !! Range(b, c) && Range(a, b) + Range(b, c) !! Range(c, d)
  {
  }

  lemma SkipsExtend(src: Source, skipped: map<nat, Source>, at: Source, a: nat, b: nat)
    requires SkipsTrue(src, skipped) && Evolves(at, src) && AllGone(at, a, b)
    ensures SkipsTrue(src, skipped + Snapshots(a, b, at))
    ensures (skipped + Snapshots(a, b, at)).Keys == skipped.Keys + Range(a, b)
  {
  }

  /** Giving up `[next, a)` and then writing `[a, next')` keeps the account balanced. */
  lemma AccountAdvances(src: Source, first: nat, m: State, m': State, skipped: map<nat, Source>, at: Source, a: nat)
    requires Accounted(src, first, m, skipped)
    requires m.next <= a && Grown(src.pushed, m.(next := a), m')
    requires Evolves(at, src) && AllGone(at, m.next, a)
    ensures Accounted(src, first, m', skipped + Snapshots(m.next, a, at))
  {
    SkipsExtend(src, skipped, at, m.next, a);
    EntriesSeqs(m.log, src.pushed, a, m'.next);
    RangeSplits(first, m.next, a, m'.next);
    assert LogSeqs(m.log) <= Range(first, m.next) && skipped.Keys <= Range(first, m.next);
    LogGrows(m.log, src.pushed, first, m.next, a, m'.next);
  }

  lemma AccountWrites(src: Source, first: nat, m: State, m': State, skipped: map<nat, Source>)
    requires Accounted(src, first, m, skipped) && Grown(src.pushed, m, m')
    ensures Accounted(src, first, m', skipped)
  {
    EvolvesReflexive(src);
    assert m.(next := m.next) == m;
    AccountAdvances(src, first, m, m', skipped, src, m.next);
    assert skipped + Snapshots(m.next, m.next, src) == skipped;
  }

  lemma AccountStable(src: Source, src': Source, first: nat, m: State, skipped: map<nat, Source>)
    requires Accounted(src, first, m, skipped) && Evolves(src, src')
    ensures Accounted(src', first, m, skipped)
  {
  }
}
