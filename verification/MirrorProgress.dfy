/** The mirror's own ring is never stuck: its writer can bring it level with what the mirror has logged,
    and its consumers can then read everything that is there. */
module MirrorProgress {
  import A = Arena
  import opened BlobRing
  import opened SlotProtocol
  import opened MirrorRing
  import opened Stream
  import B = BlobConsumer
  import BlobPushing
  import BlobReceiving
  import C = Consumer
  import M = Mirror
  import O = Origin
  import Receiving
  import W = Wire

  // ------------------------------------------------------------------ the mirror's writer

  /** Steps of the mirror's writer, with the ring after each. */
  datatype Writing = Finished | Then(step: PushStep, ring: State, rest: Writing)

  /** They lead from ring `r`, with `k` records of the log taken, to `r'` with `k'` taken. */
  predicate Leads(g: Geometry, log: seq<M.Written>, r: State, k: nat, path: Writing, r': State, k': nat)
    decreases path
  {
    match path
    case Finished => r == r' && k == k'
    case Then(step, m, rest) =>
      && Pushes(g, r, m, step)
      && (step.Reserve? ==> k < |log| && log[k].seq_ < 0x1_0000_0000_0000_0000 && step == PushOf(g, log[k]))
      && Leads(g, log, m, if step.Reserve? then k + 1 else k, rest, r', k')
  }

  ghost predicate Comes(g: Geometry, log: seq<M.Written>, r: State, k: nat, r': State, k': nat) {
    exists path :: Leads(g, log, r, k, path, r', k')
  }

  lemma {:induction false} PushesOn(g: Geometry, log: seq<M.Written>, r: State, k: nat, path: BlobPushing.Path,
                                    m: State, r': State, k': nat)
    requires BlobPushing.Leads(g, r, path, m) && Comes(g, log, m, k, r', k')
    ensures Comes(g, log, r, k, r', k')
    decreases path
  {
    match path
    case Here =>
    case Then(step, q, rest) =>
      PushesOn(g, log, q, k, rest, m, r', k');
      var more :| Leads(g, log, q, k, more, r', k');
      assert Leads(g, log, r, k, Then(step, q, more), r', k');
  }

  /** So much arena offset is left for `k` more records. */
  predicate Room(r: State, k: nat) { r.reserved + k * (2 * |r.data| + 64) < 0x1_0000_0000_0000_0000 }

  lemma ReserveTakes(g: Geometry, r: State, r': State, w: PushStep)
    requires StateOk(g, r) && Pushes(g, r, r', w) && w.Reserve?
    ensures r'.reserved <= r.reserved + 2 * |r.data| + 64 && |r'.data| == |r.data|
  {
    if g.hasArena && w.payload != [] { A.PlaceIsFirstFit(r.reserved, |w.payload|, |r.data|); }
  }

  lemma RoomLeft(r: State, r': State, k: nat)
    requires Room(r, k + 1)
    ensures r.reserved + 2 * |r.data| + 64 < 0x1_0000_0000_0000_0000
    ensures r'.reserved <= r.reserved + 2 * |r.data| + 64 && |r'.data| == |r.data| ==> Room(r', k)
  {
    var a := 2 * |r.data| + 64;
    assert (k + 1) * a == k * a + a && k * a >= 0;
  }

  /** The records of the log fit the ring, in increasing order. */
  predicate LogFits(g: Geometry, log: seq<M.Written>, size: nat) {
    && W.GeometryOk(g)
    && (forall i :: 0 <= i < |log| ==> RecordFits(g, log[i], size))
    && (forall i, j :: 0 <= i < j < |log| ==> log[i].seq_ < log[j].seq_)
  }

  predicate RecordFits(g: Geometry, e: M.Written, size: nat)
    requires W.GeometryOk(g)
  {
    W.RecordOk(g, e.record) && |e.record.blob| <= size && |e.record.blob| < 0x1_0000_0000 && e.seq_ + 2 < 0x1_0000_0000_0000_0000
  }

  /** Of the log the first `k` records have been taken to the ring, and the others lie above it. */
  predicate InPlace(g: Geometry, log: seq<M.Written>, r: State, k: nat) {
    RingOkay(g, r) && LogFits(g, log, |r.data|) && k <= |log| && (k < |log| ==> r.last < log[k].seq_)
  }

  lemma OkayKept(g: Geometry, r: State, r': State)
    requires RingOkay(g, r) && StateOk(g, r') && r'.sent == r.sent && |r'.data| == |r.data| && r'.ring.width == r.ring.width
    ensures RingOkay(g, r')
  {
  }

  /** The record under way is written and announced. */
  lemma CompletesRecord(g: Geometry, log: seq<M.Written>, r: State, k: nat) returns (m: State, path: BlobPushing.Path)
    requires InPlace(g, log, r, k)
    ensures BlobPushing.Leads(g, r, path, m) && InPlace(g, log, m, k) && BlobPushing.AllAnnounced(m)
    ensures m.reserved == r.reserved && |m.data| == |r.data|
  {
    m := BlobPushing.Completes(g, r);
    path :| BlobPushing.Leads(g, r, path, m);
    BlobPushing.WidthKept(g, r, path, m);
    OkayKept(g, r, m);
  }

  /** The next record logged is begun. */
  lemma BeginsNext(g: Geometry, log: seq<M.Written>, r: State, k: nat, left: nat) returns (m: State)
    requires InPlace(g, log, r, k) && k < |log| && r.phase.Ready? && Room(r, left + 1)
    ensures Pushes(g, r, m, PushOf(g, log[k])) && InPlace(g, log, m, k + 1) && Room(m, left)
  {
    assert RecordFits(g, log[k], |r.data|);
    RoomLeft(r, r, left);
    CanReserve(g, r, log[k]);
    m :| Pushes(g, r, m, PushOf(g, log[k]));
    ReserveTakes(g, r, m, PushOf(g, log[k]));
    RoomLeft(r, m, left);
    WriteKeepsRing(g, r, m, PushOf(g, log[k]));
  }

  /** Everything is announced, and so it goes on from a record completed. */
  lemma {:induction false} WritesEverything(g: Geometry, log: seq<M.Written>, r: State, k: nat) returns (r': State)
    requires InPlace(g, log, r, k) && Room(r, |log| - k)
    ensures Comes(g, log, r, k, r', |log|) && BlobPushing.AllAnnounced(r')
    decreases |log| - k
  {
    var m, path := CompletesRecord(g, log, r, k);
    if k == |log| {
      r' := m;
      assert Leads(g, log, m, k, Finished, m, k);
    } else {
      var n := BeginsNext(g, log, m, k, |log| - k - 1);
      r' := WritesEverything(g, log, n, k + 1);
      var more :| Leads(g, log, n, k + 1, more, r', |log|);
      assert Leads(g, log, m, k, Then(PushOf(g, log[k]), n, more), r', |log|);
    }
    PushesOn(g, log, r, k, path, m, r', |log|);
  }

  // ------------------------------------------------------------------ steps of the whole system

  /** What happens at the mirror's ring: nothing arrives and nobody comes. */
  predicate AtMirror(step: Step) { step.Write? || step.Read? || step.Receive? }

  datatype Path = Here | After(step: Step, system: System, rest: Path)

  ghost predicate Goes(c: Config, s: System, path: Path, s': System)
    decreases path
  {
    match path
    case Here => s == s'
    case After(step, m, rest) => AtMirror(step) && NextStep(c, s, m, step) && Goes(c, m, rest, s')
  }

  /** By finitely many steps at the mirror's ring. */
  ghost predicate GoesTo(c: Config, s: System, s': System) { exists path :: Goes(c, s, path, s') }

  lemma Stays(c: Config, s: System)
    ensures GoesTo(c, s, s)
  {
    assert Goes(c, s, Here, s);
  }

  lemma GoesFirst(c: Config, s: System, m: System, s': System, step: Step)
    requires AtMirror(step) && NextStep(c, s, m, step) && GoesTo(c, m, s')
    ensures GoesTo(c, s, s')
  {
    var path :| Goes(c, m, path, s');
    assert Goes(c, s, After(step, m, path), s');
  }

  lemma {:induction false} GoesJoined(c: Config, a: System, path: Path, b: System, d: System)
    requires Goes(c, a, path, b) && GoesTo(c, b, d)
    ensures GoesTo(c, a, d)
    decreases path
  {
    match path
    case Here =>
    case After(step, m, rest) =>
      GoesJoined(c, m, rest, b, d);
      GoesFirst(c, a, m, d, step);
  }

  lemma Joins(c: Config, a: System, b: System, d: System)
    requires GoesTo(c, a, b) && GoesTo(c, b, d)
    ensures GoesTo(c, a, d)
  {
    var path :| Goes(c, a, path, b);
    GoesJoined(c, a, path, b, d);
  }

  lemma StepReaches(c: Config, s: System, s': System, step: Step)
    requires Reachable(c, s) && NextStep(c, s, s', step)
    ensures Reachable(c, s')
  {
    var n: nat :| Reaches(c, s, n);
    assert Steps(c, s, s');
    assert Reaches(c, s', n + 1);
  }

  lemma {:induction false} GoesReachably(c: Config, s: System, path: Path, s': System)
    requires Reachable(c, s) && Goes(c, s, path, s')
    ensures Reachable(c, s')
    decreases path
  {
    match path
    case Here =>
    case After(step, m, rest) =>
      StepReaches(c, s, m, step);
      GoesReachably(c, m, rest, s');
  }

  lemma StaysReachable(c: Config, s: System, s': System)
    requires Reachable(c, s) && GoesTo(c, s, s')
    ensures Reachable(c, s')
  {
    var path :| Goes(c, s, path, s');
    GoesReachably(c, s, path, s');
  }

  /** The writer's steps are steps of the system. */
  lemma {:induction false} Writes1(c: Config, s: System, path: Writing, r: State, k: nat)
    requires Leads(c.g, Log(s), s.ring, s.written, path, r, k)
    ensures GoesTo(c, s, s.(ring := r, written := k))
    decreases path
  {
    match path
    case Finished => Stays(c, s);
    case Then(step, m, rest) =>
      var t := s.(ring := m, written := if step.Reserve? then s.written + 1 else s.written);
      Writes1(c, t, rest, r, k);
      GoesFirst(c, s, t, s.(ring := r, written := k), Write(step));
  }

  lemma Reads1(c: Config, s: System, id: nat) returns (t: System)
    requires Shape(s.ring.ring) && id in s.readers && Receiving.CanAct(s.ring.ring, s.readers[id])
    ensures t == s.(readers := s.readers[id := C.Act(s.ring.ring, s.readers[id], true)]) && NextStep(c, s, t, Read(id))
  {
    t := s.(readers := s.readers[id := C.Act(s.ring.ring, s.readers[id], true)]);
  }

  lemma {:induction false} ReadsOn(c: Config, s: System, id: nat, r: C.Consumer, n: nat)
    requires Shape(s.ring.ring) && id in s.readers && Receiving.ActsTo(s.ring.ring, s.readers[id], r, true, n)
    ensures GoesTo(c, s, s.(readers := s.readers[id := r]))
    decreases n
  {
    if n == 0 {
      assert s.readers[id := r] == s.readers;
      Stays(c, s);
    } else {
      var t := Reads1(c, s, id);
      ReadsOn(c, t, id, r, n - 1);
      assert t.readers[id := r] == s.readers[id := r];
      GoesFirst(c, s, t, s.(readers := s.readers[id := r]), Read(id));
    }
  }

  lemma Receives1(c: Config, s: System, id: nat) returns (t: System)
    requires id in s.receivers && B.Actable(s.ring, s.receivers[id])
    ensures t == s.(receivers := s.receivers[id := B.Act(s.ring, s.receivers[id], true, true)])
    ensures NextStep(c, s, t, Receive(id, true))
  {
    t := s.(receivers := s.receivers[id := B.Act(s.ring, s.receivers[id], true, true)]);
  }

  lemma {:induction false} ReceivesOn(c: Config, s: System, id: nat, r: B.Consumer, n: nat)
    requires id in s.receivers && BlobReceiving.ActsTo(s.ring, s.receivers[id], r, true, n)
    ensures GoesTo(c, s, s.(receivers := s.receivers[id := r]))
    decreases n
  {
    if n == 0 {
      assert s.receivers[id := r] == s.receivers;
      Stays(c, s);
    } else {
      var t := Receives1(c, s, id);
      ReceivesOn(c, t, id, r, n - 1);
      assert t.receivers[id := r] == s.receivers[id := r];
      GoesFirst(c, s, t, s.(receivers := s.receivers[id := r]), Receive(id, true));
    }
  }

  // ------------------------------------------------------------------ the writer catches up

  lemma LogIsInPlace(c: Config, s: System)
    requires Reachable(c, s)
    ensures InPlace(c.g, Log(s), s.ring, s.written)
  {
    RingFacts(c, s);
    OriginFacts(c, s);
    O.SourceFacts(c, s.origin);
    O.EverySequenceAccountedFor(c, s.origin);
    if s.written < |Log(s)| { WritesInOrder(c, s); }
    forall i | 0 <= i < |Log(s)| ensures RecordFits(c.g, Log(s)[i], |s.ring.data|) {
      LoggedIsPushed(Pushed(s), Log(s), i);
      BlobIsShort(c.g, Log(s)[i].record);
    }
  }

  /** Of the records logged so many have not been taken to the ring. */
  function Backlog(s: System): nat { if s.written <= |Log(s)| then |Log(s)| - s.written else 0 }

  /** Everything the mirror has logged has been taken to its ring and is announced. */
  predicate Level(s: System) { s.written == |Log(s)| && BlobPushing.AllAnnounced(s.ring) }

  lemma Levels(c: Config, s: System) returns (t: System)
    requires InPlace(c.g, Log(s), s.ring, s.written) && Room(s.ring, |Log(s)| - s.written)
    ensures GoesTo(c, s, t) && Level(t) && t == s.(ring := t.ring, written := t.written)
  {
    var r := WritesEverything(c.g, Log(s), s.ring, s.written);
    var path :| Leads(c.g, Log(s), s.ring, s.written, path, r, |Log(s)|);
    Writes1(c, s, path, r, |Log(s)|);
    t := s.(ring := r, written := |Log(s)|);
  }

  /** The mirror's writer can bring its ring level with the log, while the arena's 64-bit counter lasts. */
  lemma RingCanBeLevelled(c: Config, s: System) returns (t: System)
    requires Reachable(c, s) && Room(s.ring, Backlog(s))
    ensures GoesTo(c, s, t) && Level(t) && t == s.(ring := t.ring, written := t.written)
  {
    LogIsInPlace(c, s);
    t := Levels(c, s);
  }

  // ------------------------------------------------------------------ its consumers

  /** Whatever a reader of the mirror's slots has passed from the mirror's first sequence on, it has
      returned, or the mirror gave it up, or the mirror's ring has lapped it. */
  ghost predicate NothingMissed(s: System, id: nat)
    requires id in s.readers
  {
    forall m :: s.origin.net.First() <= m && s.readers[id].start <= m < s.readers[id].cursor ==>
      m in C.Seqs(s.readers[id].delivered) || m + s.ring.ring.cap <= s.ring.ring.top || GivenUp(s.origin.net, m)
  }

  lemma MissesNothing(c: Config, s: System, id: nat)
    requires Reachable(c, s) && id in s.readers
    ensures NothingMissed(s, id)
  {
    forall m | s.origin.net.First() <= m && s.readers[id].start <= m < s.readers[id].cursor
      ensures m in C.Seqs(s.readers[id].delivered) || m + s.ring.ring.cap <= s.ring.ring.top || GivenUp(s.origin.net, m)
    {
      if m !in C.Seqs(s.readers[id].delivered) { OnlyTheLostAreMissed(c, s, id, m); }
    }
  }

  /** A consumer of the slots of a ring that is level reads past everything. */
  lemma ReadsToEnd(c: Config, s: System, id: nat) returns (t: System)
    requires Reachable(c, s) && Level(s) && id in s.readers
    ensures GoesTo(c, s, t) && id in t.readers && t == s.(readers := s.readers[id := t.readers[id]])
    ensures t.readers[id].cursor > t.ring.last
  {
    ReaderFacts(c, s, id);
    var r := Receiving.ReadsEverything(s.ring.ring, s.readers[id], true);
    var n: nat :| Receiving.ActsTo(s.ring.ring, s.readers[id], r, true, n);
    ReadsOn(c, s, id, r, n);
    t := s.(readers := s.readers[id := r]);
  }

  /** The consumer has everything behind it. */
  ghost predicate ReaderDone(c: Config, s: System, t: System, id: nat) {
    && GoesTo(c, s, t) && t.origin == s.origin && Level(t) && id in t.readers
    && t.readers[id].cursor > t.ring.last && NothingMissed(t, id)
  }

  /** From every reachable state the mirror's writer and a consumer of its slots can go on, with nothing
      more arriving, to where everything the mirror has logged is behind the consumer: each message from
      the mirror's first one on was returned to it, or given up by the mirror after the source had lost
      it, or lies a full ring back. */
  lemma ReadersCanGetEverything(c: Config, s: System, id: nat)
    requires Reachable(c, s) && id in s.readers && Room(s.ring, Backlog(s))
    ensures exists t :: ReaderDone(c, s, t, id)
  {
    var u := RingCanBeLevelled(c, s);
    StaysReachable(c, s, u);
    var t := ReadsToEnd(c, u, id);
    StaysReachable(c, u, t);
    MissesNothing(c, t, id);
    Joins(c, s, u, t);
    assert ReaderDone(c, s, t, id);
  }

  ghost predicate NoBlobMissed(s: System, id: nat)
    requires id in s.receivers
  {
    forall m :: s.origin.net.First() <= m && s.receivers[id].start <= m < s.receivers[id].cursor ==>
      || B.Delivered(s.receivers[id], m) || m + s.ring.ring.cap <= s.ring.ring.top || GivenUp(s.origin.net, m)
      || (m in s.ring.sent && s.ring.reserved > s.ring.sent[m].blob.offset + |s.ring.data|)
  }

  lemma MissesNoBlob(c: Config, s: System, id: nat)
    requires Reachable(c, s) && id in s.receivers
    ensures NoBlobMissed(s, id)
  {
    forall m | s.origin.net.First() <= m && s.receivers[id].start <= m < s.receivers[id].cursor
      ensures || B.Delivered(s.receivers[id], m) || m + s.ring.ring.cap <= s.ring.ring.top || GivenUp(s.origin.net, m)
              || (m in s.ring.sent && s.ring.reserved > s.ring.sent[m].blob.offset + |s.ring.data|)
    {
      if !B.Delivered(s.receivers[id], m) { OnlyTheLostBlobsAreMissed(c, s, id, m); }
    }
  }

  lemma ReceivesToEnd(c: Config, s: System, id: nat) returns (t: System)
    requires Reachable(c, s) && Level(s) && id in s.receivers
    ensures GoesTo(c, s, t) && id in t.receivers && t == s.(receivers := s.receivers[id := t.receivers[id]])
    ensures t.receivers[id].cursor > t.ring.last
  {
    RingFacts(c, s);
    ReceiverFacts(c, s, id);
    var r := BlobReceiving.ReceivesEverything(c.g, s.ring, s.receivers[id], true);
    var n: nat :| BlobReceiving.ActsTo(s.ring, s.receivers[id], r, true, n);
    ReceivesOn(c, s, id, r, n);
    t := s.(receivers := s.receivers[id := r]);
  }

  ghost predicate ReceiverDone(c: Config, s: System, t: System, id: nat) {
    && GoesTo(c, s, t) && t.origin == s.origin && Level(t) && id in t.receivers
    && t.receivers[id].cursor > t.ring.last && NoBlobMissed(t, id)
  }

  /** So can a consumer of its blobs, which may besides miss messages whose bytes the mirror's arena has
      lapped. */
  lemma ReceiversCanGetEverything(c: Config, s: System, id: nat)
    requires Reachable(c, s) && id in s.receivers && Room(s.ring, Backlog(s))
    ensures exists t :: ReceiverDone(c, s, t, id)
  {
    var u := RingCanBeLevelled(c, s);
    StaysReachable(c, s, u);
    var t := ReceivesToEnd(c, u, id);
    StaysReachable(c, u, t);
    MissesNoBlob(c, t, id);
    Joins(c, s, u, t);
    assert ReceiverDone(c, s, t, id);
  }

  // ------------------------------------------------------------------ who comes

  /** Consumers of the slots can come at any time, and begin where their mode says. */
  lemma ReadersCanCome(c: Config, s: System, id: nat, mode: C.StartMode)
    requires RingOk(s.ring.ring) && id !in s.readers
    ensures exists s' :: && NextStep(c, s, s', Attach(id, mode)) && id in s'.readers && s'.ring == s.ring
                         && C.Places(mode, s.ring.ring.writeSeq, s.ring.ring.cap, s'.readers[id].cursor, s'.readers[id].lapped)
  {
    C.AttachPlaces(s.ring.ring, mode);
    assert NextStep(c, s, s.(readers := s.readers[id := C.Attach(s.ring.ring, mode)]), Attach(id, mode));
  }

  /** Consumers of the blobs begin at the oldest message retained. */
  lemma ReceiversCanCome(c: Config, s: System, id: nat)
    requires RingOk(s.ring.ring) && id !in s.receivers && c.g.hasArena
    ensures exists s' :: && NextStep(c, s, s', Join(id)) && id in s'.receivers && s'.ring == s.ring
                         && C.Places(C.Oldest, s.ring.ring.writeSeq, s.ring.ring.cap, s'.receivers[id].cursor, 0)
  {
    B.AttachPlaces(s.ring);
    assert NextStep(c, s, s.(receivers := s.receivers[id := B.Attach(s.ring)]), Join(id));
  }
}
