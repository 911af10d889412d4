/** From a producer's `push` to the return of a consumer of a mirror: what the mirror logs is written
    into its own ring and arena, word by word and byte by byte, while consumers of that ring read it. */
module MirrorRing {
  import opened Arena
  import opened BlobRing
  import opened SlotProtocol
  import opened Wire
  import Account
  import B = BlobConsumer
  import Basics
  import C = Consumer
  import M = Mirror
  import O = Origin
  import R = Replica
  import S = SourceReads
  import SourceRing
  import opened Stream

  /** Of the records the mirror has logged the first `written` have been taken to its ring. Consumers
      of the slots and consumers of blobs are numbered separately. */
  datatype System = System(origin: O.System, ring: State, written: nat,
                           readers: map<nat, C.Consumer>, receivers: map<nat, B.Consumer>)

  function Pushed(s: System): seq<Record> { s.origin.net.Src().pushed }
  function Log(s: System): seq<M.Written> { s.origin.net.Mirror().log }

  // ------------------------------------------------------------------ what the mirror writes

  /** The part of a slot payload before the blob reference that ends it in an arena ring. */
  function Meta(g: Geometry, descriptor: seq<Byte>): seq<Byte> {
    if g.hasArena && |descriptor| >= BLOB_REF_LEN then descriptor[..|descriptor| - BLOB_REF_LEN] else descriptor
  }

  function Flags(g: Geometry, descriptor: seq<Byte>): (f: U32) {
    if g.hasArena && |descriptor| >= BLOB_REF_LEN then
      WordWidths();
      LeValueBound(descriptor[|descriptor| - 4..]);
      BlobFlags(descriptor)
    else 0
  }

  datatype Step =
    | Upstream(o: O.Step)
    | Write(w: PushStep)
    | Attach(id: nat, mode: C.StartMode)
    | Read(id: nat)
    | Join(id: nat)
    | Receive(id: nat, fits: bool)

  /** One action of the mirror on its ring; the next record it pushes is the next one it logged. */
  predicate Writes(c: Config, s: System, s': System, w: PushStep) {
    && Pushes(c.g, s.ring, s'.ring, w)
    && (w.Reserve? ==>
          && s.written < |Log(s)|
          && var e := Log(s)[s.written];
          w == Reserve(e.seq_, Meta(c.g, e.record.descriptor), e.record.blob, Flags(c.g, e.record.descriptor)))
    && s' == s.(ring := s'.ring, written := if w.Reserve? then s.written + 1 else s.written)
  }

  predicate Reads(s: System, s': System, id: nat) {
    && Shape(s.ring.ring) && id in s.readers
    && var r := s.readers[id];
    && (r.pc.Reading? && r.pc.rd.Copied? ==> |r.pc.rd.buf| <= s.ring.ring.width)
    && s' == s.(readers := s.readers[id := C.Act(s.ring.ring, r, true)])
  }

  predicate Receives(s: System, s': System, id: nat, fits: bool) {
    && id in s.receivers && B.Actable(s.ring, s.receivers[id])
    && s' == s.(receivers := s.receivers[id := B.Act(s.ring, s.receivers[id], fits, true)])
  }

  ghost predicate NextStep(c: Config, s: System, s': System, step: Step) {
    match step
    case Upstream(o) => O.NextStep(c, s.origin, s'.origin, o) && s' == s.(origin := s'.origin)
    case Write(w) => Writes(c, s, s', w)
    case Attach(id, mode) =>
      && id !in s.readers && Shape(s.ring.ring)
      && s' == s.(readers := s.readers[id := C.Attach(s.ring.ring, mode)])
    case Read(id) => Reads(s, s', id)
    case Join(id) =>
      && id !in s.receivers && c.g.hasArena && s.ring.ring.cap >= 1
      && s' == s.(receivers := s.receivers[id := B.Attach(s.ring)])
    case Receive(id, fits) => Receives(s, s', id, fits)
  }

  // ------------------------------------------------------------------ invariant

  /** Packet `p` is message `n` of the source as a mirror stores it: the same metadata and bytes. */
  predicate Mirrors(g: Geometry, pushed: seq<Record>, n: nat, p: Packet) {
    && 1 <= n <= |pushed| && p.payload == pushed[n - 1].blob
    && Meta(g, p.descriptor) == Meta(g, pushed[n - 1].descriptor)
    && (g.hasArena ==> |p.descriptor| >= BLOB_REF_LEN)
  }

  /** The ring holds or held what has been taken from the log, and nothing but the source's records. */
  predicate RingMirrors(g: Geometry, pushed: seq<Record>, log: seq<M.Written>, r: State, written: nat) {
    Taken(log, r, written) && forall n :: n in r.sent ==> Mirrors(g, pushed, n, r.sent[n])
  }

  predicate Taken(log: seq<M.Written>, r: State, written: nat) {
    && written <= |log| && (written > 0 ==> r.last == log[written - 1].seq_)
    && (forall k :: 0 <= k < written ==> log[k].seq_ in r.sent)
  }

  predicate RingOkay(g: Geometry, r: State) {
    && GeometryOk(g) && StateOk(g, r) && NamesOk(g, r) && r.ring.width == g.payloadLen
    && (g.hasArena ==> |r.data| == g.arenaSize)
  }

  predicate RingSide(c: Config, s: System) {
    && RingOkay(c.g, s.ring) && RingMirrors(c.g, Pushed(s), Log(s), s.ring, s.written)
    && (s.written == 0 ==> s.ring.last < s.origin.net.First())
  }

  predicate ReadersOk(r: Ring, cs: map<nat, C.Consumer>)
    requires Shape(r)
  {
    forall id :: id in cs ==> C.ConsumerOk(r, cs[id])
  }

  predicate ReceiversOk(g: Geometry, r: State, cs: map<nat, B.Consumer>)
    requires Shape(r.ring)
  {
    (cs != map[] ==> g.hasArena) && forall id :: id in cs ==> B.ConsumerOk(r, cs[id])
  }

  ghost predicate Inv(c: Config, s: System) {
    && O.Reachable(c, s.origin) && RingSide(c, s)
    && ReadersOk(s.ring.ring, s.readers) && ReceiversOk(c.g, s.ring, s.receivers)
  }

  /** The mirror has just connected, with a fresh ring or one it resumes that holds earlier records
      of this source. */
  ghost predicate Init(c: Config, s: System) {
    && O.Init(c, s.origin) && s.written == 0 && s.readers == map[] && s.receivers == map[]
    && RingOkay(c.g, s.ring) && s.ring.last < s.origin.net.First()
    && forall n :: n in s.ring.sent ==> Mirrors(c.g, Pushed(s), n, s.ring.sent[n])
  }

  lemma InitHolds(c: Config, s: System)
    requires Init(c, s)
    ensures Inv(c, s)
  {
    assert O.Reaches(c, s.origin, 0);
  }

  // ------------------------------------------------------------------ steps upstream

  lemma StillMirrors(g: Geometry, pushed: seq<Record>, more: seq<Record>, log: seq<M.Written>, longer: seq<M.Written>,
                     r: State, written: nat)
    requires RingMirrors(g, pushed, log, r, written) && pushed <= more && log <= longer
    ensures RingMirrors(g, more, longer, r, written)
  {
    forall n | n in r.sent ensures Mirrors(g, more, n, r.sent[n]) {
      assert Mirrors(g, pushed, n, r.sent[n]);
      assert more[n - 1] == pushed[n - 1];
    }
  }

  lemma UpstreamKeeps(c: Config, s: System, s': System, o: O.Step)
    requires Inv(c, s) && NextStep(c, s, s', Upstream(o))
    ensures Inv(c, s')
  {
    O.GoesOn(c, s.origin, s'.origin, o);
    StillMirrors(c.g, Pushed(s), Pushed(s'), Log(s), Log(s'), s.ring, s.written);
  }

  // ------------------------------------------------------------------ steps of the mirror's writer

  /** What a push stores is the record. */
  lemma ReservationMirrors(g: Geometry, cap: nat, reserved: nat, pushed: seq<Record>, n: nat)
    requires cap >= 1 && GeometryOk(g) && 1 <= n <= |pushed| && RecordOk(g, pushed[n - 1])
    ensures var r := pushed[n - 1];
            Mirrors(g, pushed, n, Reservation(g, cap, reserved, Meta(g, r.descriptor), r.blob, Flags(g, r.descriptor)).0)
  {
    var r := pushed[n - 1];
    var p := Reservation(g, cap, reserved, Meta(g, r.descriptor), r.blob, Flags(g, r.descriptor)).0;
    if g.hasArena { assert p.descriptor == Meta(g, r.descriptor) + BlobRing.RefBytes(p.blob); }
  }

  /** Its slot gets the descriptor with the blob reference moved to where the blob was placed. */
  lemma PushRelocates(g: Geometry, cap: nat, reserved: nat, r: Record)
    requires cap >= 1 && GeometryOk(g) && g.hasArena && RecordOk(g, r)
    ensures var p := Reservation(g, cap, reserved, Meta(g, r.descriptor), r.blob, Flags(g, r.descriptor)).0;
            p.blob.offset < 0x1_0000_0000_0000_0000 ==> p.descriptor == M.Relocated(r, p.blob.offset)
  {
  }

  lemma ReserveMirrors(g: Geometry, pushed: seq<Record>, log: seq<M.Written>, r: State, r': State, w: PushStep, k: nat)
    requires RingMirrors(g, pushed, log, r, k) && Pushes(g, r, r', w) && w.Reserve? && k < |log|
    requires w.n == log[k].seq_ && Mirrors(g, pushed, w.n, r'.sent[w.n])
    ensures RingMirrors(g, pushed, log, r', k + 1)
  {
  }

  lemma LoggedIsPushed(pushed: seq<Record>, log: seq<M.Written>, k: nat)
    requires Account.LogTrue(pushed, log) && k < |log|
    ensures 1 <= log[k].seq_ <= |pushed| && log[k].record == pushed[log[k].seq_ - 1]
  {
  }

  lemma WriteKeepsMirrors(c: Config, s: System, s': System, w: PushStep)
    requires GeometryOk(c.g) && Writes(c, s, s', w) && RingMirrors(c.g, Pushed(s), Log(s), s.ring, s.written)
    requires RecordsOk(c.g, Pushed(s)) && Account.LogTrue(Pushed(s), Log(s))
    ensures RingMirrors(c.g, Pushed(s), Log(s), s'.ring, s'.written)
  {
    if w.Reserve? {
      LoggedIsPushed(Pushed(s), Log(s), s.written);
      ReservationMirrors(c.g, |s.ring.data|, s.ring.reserved, Pushed(s), w.n);
      ReserveMirrors(c.g, Pushed(s), Log(s), s.ring, s'.ring, w, s.written);
    }
  }

  lemma WriteKeepsReaders(g: Geometry, r: State, r': State, w: PushStep, cs: map<nat, C.Consumer>)
    requires StateOk(g, r) && Pushes(g, r, r', w) && ReadersOk(r.ring, cs)
    ensures Shape(r'.ring) && ReadersOk(r'.ring, cs)
  {
    forall id | id in cs ensures Shape(r'.ring) && C.ConsumerOk(r'.ring, cs[id]) {
      if w.Store? { C.WriterKeepsConsumer(r.ring, r'.ring, w.w, cs[id]); }
      if w.Announce? { C.WriterKeepsConsumer(r.ring, r'.ring, Publish, cs[id]); }
    }
    PushKeeps(g, r, r', w);
  }

  lemma WriteKeepsReceivers(g: Geometry, r: State, r': State, w: PushStep, cs: map<nat, B.Consumer>)
    requires StateOk(g, r) && Pushes(g, r, r', w) && ReceiversOk(g, r, cs)
    ensures Shape(r'.ring) && ReceiversOk(g, r', cs)
  {
    forall id | id in cs ensures Shape(r'.ring) && B.ConsumerOk(r', cs[id]) {
      B.PushKeepsConsumer(g, r, r', w, cs[id]);
    }
    PushKeeps(g, r, r', w);
  }

  lemma WriteKeepsRing(g: Geometry, r: State, r': State, w: PushStep)
    requires RingOkay(g, r) && Pushes(g, r, r', w)
    ensures RingOkay(g, r')
  {
    PushKeeps(g, r, r', w);
    PushKeepsNames(g, r, r', w);
  }

  /** What the records logged and pushed are, whatever mode the mirror is connected in. */
  lemma LogFacts(c: Config, s: System)
    requires Inv(c, s)
    ensures RecordsOk(c.g, Pushed(s)) && Account.LogTrue(Pushed(s), Log(s))
  {
    O.SourceFacts(c, s.origin);
    O.EverySequenceAccountedFor(c, s.origin);
  }

  lemma WriteKeeps(c: Config, s: System, s': System, w: PushStep)
    requires Inv(c, s) && NextStep(c, s, s', Write(w))
    ensures Inv(c, s')
  {
    LogFacts(c, s);
    WriteKeepsMirrors(c, s, s', w);
    WriteKeepsRing(c.g, s.ring, s'.ring, w);
    WriteKeepsReaders(c.g, s.ring, s'.ring, w, s.readers);
    WriteKeepsReceivers(c.g, s.ring, s'.ring, w, s.receivers);
  }

  // ------------------------------------------------------------------ steps of consumers

  lemma ReaderActs(r: Ring, cs: map<nat, C.Consumer>, id: nat)
    requires RingOk(r) && ReadersOk(r, cs)
    ensures forall mode :: ReadersOk(r, cs[id := C.Attach(r, mode)])
    ensures id in cs ==> ReadersOk(r, cs[id := C.Act(r, cs[id], true)])
  {
    forall mode ensures ReadersOk(r, cs[id := C.Attach(r, mode)]) { C.AttachHolds(r, mode); }
    if id in cs { C.ActKeeps(r, cs[id], true); }
  }

  lemma ReceiverJoins(g: Geometry, r: State, cs: map<nat, B.Consumer>, id: nat)
    requires RingOkay(g, r) && ReceiversOk(g, r, cs) && g.hasArena
    ensures ReceiversOk(g, r, cs[id := B.Attach(r)])
  {
    B.AttachHolds(g, r);
  }

  lemma ReceiverActs(g: Geometry, r: State, cs: map<nat, B.Consumer>, id: nat, fits: bool)
    requires RingOkay(g, r) && ReceiversOk(g, r, cs) && id in cs && B.Actable(r, cs[id])
    ensures ReceiversOk(g, r, cs[id := B.Act(r, cs[id], fits, true)])
  {
    B.ItemDescribes(g, r, cs[id]);
    B.ActKeeps(g, r, cs[id], fits, true);
  }

  lemma ReaderStepKeeps(c: Config, s: System, s': System, step: Step)
    requires Inv(c, s) && NextStep(c, s, s', step) && (step.Attach? || step.Read?)
    ensures Inv(c, s')
  {
    ReaderActs(s.ring.ring, s.readers, step.id);
  }

  lemma ReceiverStepKeeps(c: Config, s: System, s': System, step: Step)
    requires Inv(c, s) && NextStep(c, s, s', step) && (step.Join? || step.Receive?)
    ensures Inv(c, s')
  {
    if step.Join? { ReceiverJoins(c.g, s.ring, s.receivers, step.id); }
    else { ReceiverActs(c.g, s.ring, s.receivers, step.id, step.fits); }
  }

  lemma StepKeeps(c: Config, s: System, s': System, step: Step)
    requires Inv(c, s) && NextStep(c, s, s', step)
    ensures Inv(c, s')
  {
    match step
    case Upstream(o) => UpstreamKeeps(c, s, s', o);
    case Write(w) => WriteKeeps(c, s, s', w);
    case Attach(_, _) => ReaderStepKeeps(c, s, s', step);
    case Read(_) => ReaderStepKeeps(c, s, s', step);
    case Join(_) => ReceiverStepKeeps(c, s, s', step);
    case Receive(_, _) => ReceiverStepKeeps(c, s, s', step);
  }

  // ------------------------------------------------------------------ runs

  ghost predicate Steps(c: Config, s: System, s': System) { exists step :: NextStep(c, s, s', step) }

  /** Some run of `n` steps leads to `s`. */
  ghost predicate Reaches(c: Config, s: System, n: nat)
    decreases n
  {
    if n == 0 then Init(c, s) else exists p :: Reaches(c, p, n - 1) && Steps(c, p, s)
  }

  ghost predicate Reachable(c: Config, s: System) { exists n: nat :: Reaches(c, s, n) }

  /** A run of `n` steps leads to `s` that keeps the invariant all the way. */
  ghost predicate Safely(c: Config, s: System, n: nat)
    decreases n
  {
    Inv(c, s) && (n > 0 ==> exists p :: Safely(c, p, n - 1) && Steps(c, p, s))
  }

  lemma FirstIsSafe(c: Config, s: System)
    requires Reaches(c, s, 0)
    ensures Safely(c, s, 0)
  {
    InitHolds(c, s);
  }

  lemma NextIsSafe(c: Config, s: System, n: nat)
    requires Reaches(c, s, n + 1) && forall p :: Reaches(c, p, n) ==> Safely(c, p, n)
    ensures Safely(c, s, n + 1)
  {
    var p :| Reaches(c, p, n) && Steps(c, p, s);
    var step :| NextStep(c, p, s, step);
    StepKeeps(c, p, s, step);
  }

  lemma {:induction false} RunKeeps(c: Config, s: System, n: nat)
    requires Reaches(c, s, n)
    ensures Safely(c, s, n)
    decreases n
  {
    if n == 0 {
      FirstIsSafe(c, s);
    } else {
      var m := n - 1;
      forall p | Reaches(c, p, m) ensures Safely(c, p, m) { RunKeeps(c, p, m); }
      NextIsSafe(c, s, m);
    }
  }

  lemma RingFacts(c: Config, s: System)
    requires Reachable(c, s)
    ensures RingSide(c, s)
  {
    var n: nat :| Reaches(c, s, n);
    RunKeeps(c, s, n);
  }

  lemma OriginFacts(c: Config, s: System)
    requires Reachable(c, s)
    ensures O.Reachable(c, s.origin)
  {
    var n: nat :| Reaches(c, s, n);
    RunKeeps(c, s, n);
  }

  lemma ReaderFacts(c: Config, s: System, id: nat)
    requires Reachable(c, s) && id in s.readers
    ensures RingOk(s.ring.ring) && C.ConsumerOk(s.ring.ring, s.readers[id])
  {
    var n: nat :| Reaches(c, s, n);
    RunKeeps(c, s, n);
  }

  lemma ReceiverFacts(c: Config, s: System, id: nat)
    requires Reachable(c, s) && id in s.receivers
    ensures c.g.hasArena && Shape(s.ring.ring) && B.ConsumerOk(s.ring, s.receivers[id])
  {
    var n: nat :| Reaches(c, s, n);
    RunKeeps(c, s, n);
  }

  // ------------------------------------------------------------------ from push to recv

  /** What the producer pushed under `n`. */
  function Sent(s: System, n: nat): Packet
    requires n in s.origin.state.sent
  {
    s.origin.state.sent[n]
  }

  /** Message `n` of the mirror's ring is what the producer pushed under `n`. */
  predicate AsSent(g: Geometry, s: System, n: nat) {
    && n in s.ring.sent && n in s.origin.state.sent && s.ring.sent[n].payload == Sent(s, n).payload
    && Meta(g, s.ring.sent[n].descriptor) == Meta(g, Sent(s, n).descriptor)
    && (g.hasArena ==> |s.ring.sent[n].descriptor| >= BLOB_REF_LEN)
  }

  lemma MirroredIsSent(c: Config, s: System, n: nat)
    requires Reachable(c, s) && n in s.ring.sent
    ensures AsSent(c.g, s, n)
  {
    RingFacts(c, s);
    OriginFacts(c, s);
    O.SourceFacts(c, s.origin);
    assert Mirrors(c.g, Pushed(s), n, s.ring.sent[n]);
    assert Pushed(s)[n - 1] == S.RecordOf(s.origin.state.sent[n]);
  }

  /** A blob returned by a consumer of the mirror is the one pushed under its sequence. */
  predicate BlobAsSent(g: Geometry, s: System, d: B.Delivery) {
    && d.seq_ in s.origin.state.sent && d.bytes == Sent(s, d.seq_).payload
    && B.IsDescriptor(d.descriptor) && Meta(g, d.descriptor) == Meta(g, Sent(s, d.seq_).descriptor)
  }

  lemma DeliveredIsSent(g: Geometry, s: System, cs: B.Consumer, k: nat)
    requires Shape(s.ring.ring) && B.ConsumerOk(s.ring, cs) && k < |cs.delivered|
    requires g.hasArena && AsSent(g, s, cs.delivered[k].seq_)
    ensures BlobAsSent(g, s, cs.delivered[k])
  {
  }

  lemma DeliveredIsThere(r: State, cs: B.Consumer, k: nat)
    requires Shape(r.ring) && B.ConsumerOk(r, cs) && k < |cs.delivered|
    ensures cs.delivered[k].seq_ in r.sent
  {
  }

  /** Whatever the network loses, repeats or reorders, and however often the producer laps the reads
      of the source or the mirror its own consumers, a consumer of the mirror's blobs returns, in
      strictly increasing order, under each sequence the metadata and the payload that the producer
      pushed under it. */
  lemma MirrorDeliversBlobs(c: Config, s: System, id: nat)
    requires Reachable(c, s) && id in s.receivers
    ensures var d := s.receivers[id].delivered;
            && (forall k :: 0 <= k < |d| ==> BlobAsSent(c.g, s, d[k]))
            && (forall j, k :: 0 <= j < k < |d| ==> d[j].seq_ < d[k].seq_)
  {
    ReceiverFacts(c, s, id);
    var d := s.receivers[id].delivered;
    forall k | 0 <= k < |d| ensures BlobAsSent(c.g, s, d[k]) {
      DeliveredIsThere(s.ring, s.receivers[id], k);
      MirroredIsSent(c, s, d[k].seq_);
      DeliveredIsSent(c.g, s, s.receivers[id], k);
    }
  }

  /** So is a slot payload, which in a ring without arena is the whole message. */
  predicate SlotAsSent(g: Geometry, s: System, m: C.Message) {
    && m.seq_ in s.origin.state.sent && S.IsBytes(m.data)
    && Meta(g, m.data) == Meta(g, Sent(s, m.seq_).descriptor)
    && (!g.hasArena ==> m.data == Sent(s, m.seq_).descriptor)
  }

  lemma SlotHoldsPacket(c: Config, s: System, id: nat, k: nat)
    requires Reachable(c, s) && id in s.readers && k < |s.readers[id].delivered|
    ensures var (r, m) := (s.ring, s.readers[id].delivered[k]);
            m.seq_ in r.sent && m.data == r.sent[m.seq_].descriptor
  {
    ReaderFacts(c, s, id);
    RingFacts(c, s);
  }

  /** A consumer of the mirror's slots returns, in strictly increasing order, under each sequence what
      the producer stored in its slot under it, apart from where in the arena the blob is. */
  lemma MirrorDeliversTheSource(c: Config, s: System, id: nat)
    requires Reachable(c, s) && id in s.readers
    ensures var d := s.readers[id].delivered;
            && (forall k :: 0 <= k < |d| ==> SlotAsSent(c.g, s, d[k]))
            && (forall j, k :: 0 <= j < k < |d| ==> d[j].seq_ < d[k].seq_)
  {
    ReaderFacts(c, s, id);
    var d := s.readers[id].delivered;
    forall k | 0 <= k < |d| ensures SlotAsSent(c.g, s, d[k]) {
      SlotHoldsPacket(c, s, id, k);
      MirroredIsSent(c, s, d[k].seq_);
    }
  }

  // ------------------------------------------------------------------ and nothing else is missed

  /** The mirror gave up `n` once the source had lost it. */
  predicate GivenUp(n: R.Net, m: nat) {
    m in n.Skipped() && SourceRing.Gone(n.Skipped()[m], m) && SourceRing.Evolves(n.Skipped()[m], n.Src())
  }

  lemma LoggedOrGivenUp(n: R.Net, m: nat)
    requires Account.Accounted(n.Src(), n.First(), n.Mirror(), n.Skipped()) && n.First() <= m < n.Mirror().next
    ensures m in Account.LogSeqs(n.Mirror().log) || GivenUp(n, m)
  {
    assert m in Basics.Range(n.First(), n.Mirror().next);
  }

  lemma LoggedIsTaken(log: seq<M.Written>, k: nat, m: nat)
    requires Account.Increasing(log) && 0 < k <= |log| && m in Account.LogSeqs(log) && m <= log[k - 1].seq_
    ensures exists j :: 0 <= j < k && log[j].seq_ == m
  {
    var w :| w in log && w.seq_ == m;
    var j :| 0 <= j < |log| && log[j] == w;
    assert log[j].seq_ <= log[k - 1].seq_;
  }

  lemma TakenOrGivenUp(n: R.Net, r: State, k: nat, m: nat)
    requires Account.Accounted(n.Src(), n.First(), n.Mirror(), n.Skipped()) && Taken(n.Mirror().log, r, k)
    requires k > 0 && n.First() <= m <= r.last
    ensures m in r.sent || GivenUp(n, m)
  {
    var log := n.Mirror().log;
    assert log[k - 1] in log && log[k - 1].seq_ in Account.LogSeqs(log);
    LoggedOrGivenUp(n, m);
    if m in Account.LogSeqs(log) { LoggedIsTaken(log, k, m); }
  }

  lemma WrittenOrGivenUp(c: Config, s: System, m: nat)
    requires Reachable(c, s) && s.origin.net.First() <= m <= s.ring.last
    ensures m in s.ring.sent || GivenUp(s.origin.net, m)
  {
    RingFacts(c, s);
    OriginFacts(c, s);
    O.EverySequenceAccountedFor(c, s.origin);
    TakenOrGivenUp(s.origin.net, s.ring, s.written, m);
  }

  lemma LappedOrGivenUp(c: Config, s: System, m: nat)
    requires Reachable(c, s) && Shape(s.ring.ring)
    requires s.origin.net.First() <= m && C.OutOfReach(s.ring.ring, m)
    ensures m + s.ring.ring.cap <= s.ring.ring.top || GivenUp(s.origin.net, m)
  {
    RingFacts(c, s);
    WrittenOrGivenUp(c, s, m);
    if m in s.ring.ring.hist && Gone(s.ring.ring, m) { ReusedSlot(s.ring.ring, m); }
  }

  /** A sequence from the mirror's first one on that a consumer of its slots passed without returning
      it was given up by the mirror once the source had lost it, or lies a full ring back. */
  lemma OnlyTheLostAreMissed(c: Config, s: System, id: nat, m: nat)
    requires Reachable(c, s) && id in s.readers && s.origin.net.First() <= m
    requires s.readers[id].start <= m < s.readers[id].cursor && m !in C.Seqs(s.readers[id].delivered)
    ensures m + s.ring.ring.cap <= s.ring.ring.top || GivenUp(s.origin.net, m)
  {
    ReaderFacts(c, s, id);
    LappedOrGivenUp(c, s, m);
  }

  /** A consumer of its blobs misses besides only messages whose bytes the mirror's arena has lapped. */
  lemma OnlyTheLostBlobsAreMissed(c: Config, s: System, id: nat, m: nat)
    requires Reachable(c, s) && id in s.receivers && s.origin.net.First() <= m
    requires s.receivers[id].start <= m < s.receivers[id].cursor && !B.Delivered(s.receivers[id], m)
    ensures var r := s.ring;
            || m + r.ring.cap <= r.ring.top || GivenUp(s.origin.net, m)
            || (m in r.sent && r.reserved > r.sent[m].blob.offset + |r.data|)
  {
    ReceiverFacts(c, s, id);
    assert B.Lost(s.ring, m);
    if C.OutOfReach(s.ring.ring, m) { LappedOrGivenUp(c, s, m); }
  }

  /** The mirror never has to write below what its ring already holds, nor more than its arena takes. */
  lemma WritesInOrder(c: Config, s: System)
    requires Reachable(c, s) && s.written < |Log(s)|
    ensures s.ring.last < Log(s)[s.written].seq_ && |Log(s)[s.written].record.blob| <= |s.ring.data|
  {
    RingFacts(c, s);
    OriginFacts(c, s);
    O.SourceFacts(c, s.origin);
    O.EverySequenceAccountedFor(c, s.origin);
    NextIsAbove(s.origin.net, s.written);
    LoggedIsPushed(Pushed(s), Log(s), s.written);
    assert RecordOk(c.g, Pushed(s)[Log(s)[s.written].seq_ - 1]);
  }

  lemma NextIsAbove(n: R.Net, k: nat)
    requires Account.Accounted(n.Src(), n.First(), n.Mirror(), n.Skipped()) && k < |n.Mirror().log|
    ensures var log := n.Mirror().log; n.First() <= log[k].seq_ && (k > 0 ==> log[k - 1].seq_ < log[k].seq_)
  {
    var log := n.Mirror().log;
    assert log[k] in log && log[k].seq_ in Account.LogSeqs(log);
  }

  /** What the mirror does with a record it has logged. */
  function PushOf(g: Geometry, e: M.Written): PushStep
    requires e.seq_ < 0x1_0000_0000_0000_0000
  {
    Reserve(e.seq_, Meta(g, e.record.descriptor), e.record.blob, Flags(g, e.record.descriptor))
  }

  lemma BlobIsShort(g: Geometry, r: Record)
    requires GeometryOk(g) && RecordOk(g, r)
    ensures |r.blob| < 0x1_0000_0000
  {
    WordWidths();
    if g.hasArena { LeValueBound(r.descriptor[|r.descriptor| - 8..|r.descriptor| - 4]); }
  }

  /** A record that fits the ring can be reserved for. */
  lemma CanReserve(g: Geometry, r: State, e: M.Written)
    requires RingOkay(g, r) && RecordOk(g, e.record) && r.phase.Ready? && r.last < e.seq_
    requires e.seq_ + 2 < 0x1_0000_0000_0000_0000 && |e.record.blob| <= |r.data| && |e.record.blob| < 0x1_0000_0000
    requires r.reserved + 2 * |r.data| + 64 < 0x1_0000_0000_0000_0000
    ensures exists r' :: Pushes(g, r, r', PushOf(g, e))
  {
    var step := PushOf(g, e);
    if g.hasArena && step.payload != [] { PlaceIsFirstFit(r.reserved, |step.payload|, |r.data|); }
    var (p, next) := Reservation(g, |r.data|, r.reserved, step.meta, step.payload, step.flags);
    var r' := r.(reserved := next, sent := r.sent[e.seq_ := p], last := e.seq_, phase := Filling(0));
    assert Pushes(g, r, r', step);
  }

  lemma NextFacts(c: Config, s: System)
    requires Reachable(c, s) && s.written < |Log(s)|
    ensures RingOkay(c.g, s.ring) && RecordOk(c.g, Log(s)[s.written].record)
    ensures Log(s)[s.written].seq_ + 2 < 0x1_0000_0000_0000_0000
  {
    RingFacts(c, s);
    OriginFacts(c, s);
    O.SourceFacts(c, s.origin);
    O.EverySequenceAccountedFor(c, s.origin);
    LoggedIsPushed(Pushed(s), Log(s), s.written);
  }

  /** The mirror can always go on to the next record it has logged, until the arena's 64-bit counter
      runs out. */
  lemma NextRecordCanBeWritten(c: Config, s: System)
    requires Reachable(c, s) && s.written < |Log(s)| && s.ring.phase.Ready?
    requires s.ring.reserved + 2 * |s.ring.data| + 64 < 0x1_0000_0000_0000_0000
    ensures exists s', w :: NextStep(c, s, s', Write(w)) && w.Reserve? && w.n == Log(s)[s.written].seq_
                            && w.payload == Log(s)[s.written].record.blob && s'.written == s.written + 1
  {
    var e := Log(s)[s.written];
    NextFacts(c, s);
    WritesInOrder(c, s);
    BlobIsShort(c.g, e.record);
    CanReserve(c.g, s.ring, e);
    var r' :| Pushes(c.g, s.ring, r', PushOf(c.g, e));
    assert NextStep(c, s, s.(ring := r', written := s.written + 1), Write(PushOf(c.g, e)));
  }
}
