/** The concrete ring behind replication refines the abstract one: every producer action is an
    abstract action or invisible, and whatever the record reader returns, with its loads spread
    between those actions, is what the abstract ring allows at that moment. */
module SourceReads {
  import opened Basics
  import opened SlotProtocol
  import opened Arena
  import opened BlobRing
  import Wire
  import SourceRing
  import Mirror

  // ------------------------------------------------------------------ abstraction

  function RecordOf(p: Packet): Wire.Record { Wire.Record(p.descriptor, p.payload) }

  /** Messages whose slot has been written. */
  function Finished(s: State): nat {
    if s.phase.Storing? && s.ring.top > 0 then s.ring.top - 1 else s.ring.top
  }

  predicate Has(s: State, n: nat) { forall m :: 1 <= m <= n ==> m in s.sent }

  predicate Listed(s: State) { Has(s, Finished(s)) }

  /** The first `n` messages. */
  function Records(s: State, n: nat): (rs: seq<Wire.Record>)
    requires Has(s, n)
    ensures |rs| == n && forall i :: 0 <= i < n ==> rs[i] == RecordOf(s.sent[i + 1])
  {
    seq(n, i requires 0 <= i < n => RecordOf(s.sent[i + 1]))
  }

  predicate BlobLapped(s: State, n: nat) {
    n in s.sent && s.sent[n].payload != [] && IsLapped(s.reserved, s.sent[n].blob, |s.data|)
  }

  function LappedUpTo(s: State, n: nat): (l: set<nat>)
    ensures forall m: nat :: m in l <==> m <= n && BlobLapped(s, m)
  {
    var rest := if n == 0 then {} else LappedUpTo(s, n - 1);
    rest + (if BlobLapped(s, n) then {n} else {})
  }

  function Abs(s: State): SourceRing.Source
    requires Listed(s)
  {
    SourceRing.Source(s.ring.cap, Records(s, Finished(s)), s.ring.top, s.ring.writeSeq, LappedUpTo(s, s.last))
  }

  predicate GeometryFits(g: Wire.Geometry, s: State) {
    Wire.GeometryOk(g) && g.payloadLen == s.ring.width && (g.hasArena ==> g.arenaSize == |s.data|)
  }

  /** Every record fits a frame. */
  predicate AllFramable(s: State) { forall n :: n in s.sent ==> SourceRing.Framable(RecordOf(s.sent[n])) }

  predicate SourceInv(g: Wire.Geometry, s: State) {
    StateOk(g, s) && Gapless(s) && NamesOk(g, s) && GeometryFits(g, s) && AllFramable(s)
  }

  lemma RecordFits(g: Wire.Geometry, s: State, n: nat)
    requires SourceInv(g, s) && n in s.sent
    ensures Wire.RecordOk(g, RecordOf(s.sent[n])) && SourceRing.Framable(RecordOf(s.sent[n]))
  {
    assert PacketOk(g, s, s.sent[n]);
  }

  lemma FinishedIsSent(g: Wire.Geometry, s: State)
    requires StateOk(g, s) && Gapless(s)
    ensures Listed(s) && s.ring.writeSeq <= Finished(s) <= s.ring.top <= Finished(s) + 1 && s.ring.top <= s.last
    ensures forall n :: n in s.ring.hist <==> 1 <= n <= Finished(s)
    ensures s.phase.Storing? <==> s.ring.top == Finished(s) + 1
  {
    if s.phase.Storing? {
      assert SlotProtocol.WriterOk(s.ring);
    }
  }

  lemma AbsOk(g: Wire.Geometry, s: State)
    requires SourceInv(g, s)
    ensures Listed(s) && SourceRing.SourceOk(g, Abs(s))
  {
    FinishedIsSent(g, s);
    forall i | 0 <= i < Finished(s)
      ensures Wire.RecordOk(g, Abs(s).pushed[i]) && SourceRing.Framable(Abs(s).pushed[i])
    {
      RecordFits(g, s, i + 1);
    }
  }

  // ------------------------------------------------------------------ the producer refines

  /** What an action of the concrete producer is to the abstract ring. */
  function AbsStep(s: State, s': State, step: PushStep): Option<SourceRing.ProducerStep> {
    match step
    case Reserve(_, _, _, _) => Some(SourceRing.Lap(LappedUpTo(s', s'.last)))
    case Fill => None
    case Store(w) =>
      (match w
       case Begin(_, _) => Some(SourceRing.Begin)
       case Finish => if !HasLast(s) then None else Some(SourceRing.Finish(RecordOf(Last(s))))
       case _ => None)
    case Announce => Some(SourceRing.Publish)
  }

  /** A blob just reserved is not lapped, and one that is stays so. */
  lemma LappedGrows(s: State, s': State)
    requires Advances(s, s')
    ensures LappedUpTo(s, s.last) <= LappedUpTo(s', s'.last)
  {
    forall n | n in LappedUpTo(s, s.last) ensures n in LappedUpTo(s', s'.last) {
      assert BlobLapped(s, n);
      assert BlobLapped(s', n);
    }
  }

  lemma LappedSame(s: State, s': State)
    requires s'.sent == s.sent && s'.last == s.last && s'.reserved == s.reserved && |s'.data| == |s.data|
    ensures LappedUpTo(s', s'.last) == LappedUpTo(s, s.last)
  {
    forall n: nat ensures n in LappedUpTo(s', s'.last) <==> n in LappedUpTo(s, s.last) {
      assert BlobLapped(s, n) <==> BlobLapped(s', n);
    }
  }

  lemma RecordsSame(s: State, s': State, n: nat)
    requires Has(s, n) && forall m :: 1 <= m <= n ==> m in s'.sent && s'.sent[m] == s.sent[m]
    ensures Records(s', n) == Records(s, n)
  {
  }

  lemma RecordsAppend(s: State, n: nat)
    requires Has(s, n + 1)
    ensures Records(s, n + 1) == Records(s, n) + [RecordOf(s.sent[n + 1])]
  {
  }

  /** The step is an action of the abstract ring, or invisible to it. */
  predicate Refined(g: Wire.Geometry, s: State, s': State, step: PushStep)
    requires Wire.GeometryOk(g) && Listed(s) && Listed(s')
  {
    var a := AbsStep(s, s', step);
    if a.None? then Abs(s') == Abs(s) else SourceRing.Produces(g, Abs(s), Abs(s'), a.value)
  }

  lemma FinishRefines(g: Wire.Geometry, s: State, s': State)
    requires Wire.GeometryOk(g) && Pushes(g, s, s', Store(SlotProtocol.Finish)) && s.ring.top >= 1
    requires Listed(s) && s.ring.top == s.last == Finished(s) + 1 && Finished(s') == s.last && HasLast(s)
    requires s.last + 2 < 0x1_0000_0000_0000_0000 && Wire.RecordOk(g, RecordOf(Last(s)))
    requires SourceRing.Framable(RecordOf(Last(s)))
    ensures Listed(s') && Refined(g, s, s', Store(SlotProtocol.Finish))
  {
    LappedSame(s, s');
    assert Has(s, Finished(s) + 1);
    RecordsAppend(s, Finished(s));
    RecordsSame(s, s', Finished(s'));
  }

  lemma BeginRefines(g: Wire.Geometry, s: State, s': State, w: WriterStep)
    requires Wire.GeometryOk(g) && Pushes(g, s, s', Store(w)) && !w.Finish?
    requires Listed(s) && Finished(s) == Finished(s') && s'.sent == s.sent
    requires w.Begin? ==> s.ring.top == Finished(s) && s.last == s.ring.top + 1
    ensures Listed(s') && Refined(g, s, s', Store(w))
  {
    LappedSame(s, s');
    RecordsSame(s, s', Finished(s));
  }

  lemma StoreRefines(g: Wire.Geometry, s: State, s': State, w: WriterStep)
    requires SourceInv(g, s) && Pushes(g, s, s', Store(w)) && StateOk(g, s') && Gapless(s')
    ensures Listed(s) && Listed(s') && Refined(g, s, s', Store(w))
  {
    FinishedIsSent(g, s);
    FinishedIsSent(g, s');
    if w.Finish? {
      RecordFits(g, s, s.last);
      FinishRefines(g, s, s');
    } else {
      BeginRefines(g, s, s', w);
    }
  }

  lemma ReserveRefines(g: Wire.Geometry, s: State, s': State, step: PushStep)
    requires Wire.GeometryOk(g) && Pushes(g, s, s', step) && step.Reserve? && Advances(s, s') && Listed(s)
    requires Finished(s) <= s.last
    ensures Listed(s') && Refined(g, s, s', step)
  {
    LappedGrows(s, s');
    RecordsSame(s, s', Finished(s));
  }

  lemma QuietRefines(g: Wire.Geometry, s: State, s': State, step: PushStep)
    requires Wire.GeometryOk(g) && Pushes(g, s, s', step) && (step.Fill? || step.Announce?)
    requires Listed(s) && Finished(s) == s.ring.top
    ensures Listed(s') && Refined(g, s, s', step)
  {
    LappedSame(s, s');
    RecordsSame(s, s', Finished(s));
  }

  /** Every action of the producer is an action of the abstract ring, or leaves it as it was. */
  lemma ProducerRefines(g: Wire.Geometry, s: State, s': State, step: PushStep)
    requires SourceInv(g, s) && Pushes(g, s, s', step) && ByProducer(s, step) && AllFramable(s')
    ensures SourceInv(g, s') && Listed(s) && Listed(s') && Refined(g, s, s', step)
  {
    PushKeeps(g, s, s', step);
    PushKeepsGapless(g, s, s', step);
    PushKeepsNames(g, s, s', step);
    FinishedIsSent(g, s);
    match step
    case Reserve(_, _, _, _) => ReserveRefines(g, s, s', step);
    case Store(w) => StoreRefines(g, s, s', w);
    case _ => QuietRefines(g, s, s', step);
  }

  // ------------------------------------------------------------------ reading a record

  /** Reading the slot, copying the blob its descriptor names, or done. */
  datatype Fetch =
    | InSlot(rd: Read)
    | InArena(descriptor: seq<Byte>, blob: BlobRef, buf: seq<Byte>)
    | Fetched(res: Wire.RawRead)

  predicate IsBytes(d: seq<int>) { forall k :: 0 <= k < |d| ==> 0 <= d[k] < 256 }

  /** The slot payload is in hand. */
  function SlotRead(g: Wire.Geometry, cap: nat, d: seq<Byte>): Fetch
    requires cap >= 1
  {
    if !g.hasArena || |d| < Wire.BLOB_REF_LEN then Fetched(Wire.Item(Wire.Record(d, [])))
    else
      var b := RefOf(d);
      if b.len == 0 then Fetched(Wire.Item(Wire.Record(d, [])))
      else if !InBounds(b, cap) then Fetched(Wire.Lost)
      else InArena(d, b, [])
  }

  predicate Fetchable(s: State, want: nat, f: Fetch) {
    && Shape(s.ring) && |s.data| >= 1 && !f.Fetched?
    && match f
       case InSlot(rd) =>
         && !rd.Done? && (rd.Copied? ==> |rd.buf| <= s.ring.width)
         && var rd' := ReadStep(s.ring, want, rd);
         && (rd'.Done? && rd'.res.Item? ==> IsBytes(rd'.res.data))
       case InArena(_, b, _) => InBounds(b, |s.data|)
  }

  /** The next load of `read_record`. */
  function FetchStep(g: Wire.Geometry, s: State, want: nat, f: Fetch): Fetch
    requires Fetchable(s, want, f)
  {
    match f
    case InSlot(rd) =>
      (match ReadStep(s.ring, want, rd)
       case Done(Item(d)) => SlotRead(g, |s.data|, d)
       case Done(Pending) => Fetched(Wire.Pending)
       case Done(Overwritten(seen)) => Fetched(Wire.Overwritten(seen))
       case rd' => InSlot(rd'))
    case InArena(d, b, buf) =>
      if |buf| < b.len then InArena(d, b, buf + [s.data[At(b, |buf|, |s.data|)]])
      else if IsLapped(s.reserved, b, |s.data|) then Fetched(Wire.Lost)
      else Fetched(Wire.Item(Wire.Record(d, buf)))
  }

  /** What a fetch under way knows. */
  predicate FetchInv(s: State, want: nat, f: Fetch)
    requires Shape(s.ring)
  {
    match f
    case InSlot(rd) => !rd.Done? && ReadInv(s.ring, want, rd)
    case InArena(d, b, buf) =>
      && want in s.ring.hist && want in s.sent && d == s.sent[want].descriptor
      && b == s.sent[want].blob && s.sent[want].payload != [] && CopyOk(s, s.sent[want], buf)
    case Fetched(_) => true
  }

  lemma MessageNamed(g: Wire.Geometry, s: State, n: nat)
    requires SourceInv(g, s) && n in s.ring.hist
    ensures n in s.sent && IsBytes(s.ring.hist[n]) && s.ring.hist[n] == s.sent[n].descriptor
    ensures SlotRead(g, |s.data|, s.ring.hist[n]) ==
            if s.sent[n].payload == [] then Fetched(Wire.Item(RecordOf(s.sent[n])))
            else InArena(s.sent[n].descriptor, s.sent[n].blob, [])
  {
    assert PacketOk(g, s, s.sent[n]);
  }

  lemma MessageBounds(g: Wire.Geometry, s: State, n: nat)
    requires StateOk(g, s) && n in s.sent
    ensures s.sent[n].blob.len == |s.sent[n].payload| && InBounds(s.sent[n].blob, |s.data|)
  {
    assert PacketOk(g, s, s.sent[n]);
  }

  lemma OkIsFetchable(g: Wire.Geometry, s: State, want: nat, f: Fetch)
    requires SourceInv(g, s) && want >= 1 && FetchInv(s, want, f) && !f.Fetched?
    ensures Fetchable(s, want, f)
  {
    match f
    case InSlot(rd) =>
      ReadStepKeeps(s.ring, want, rd);
      if want in s.ring.hist { MessageNamed(g, s, want); }
    case InArena(_, _, _) => MessageBounds(g, s, want);
  }

  /** A slot found unready: nothing was pushed there yet, or it is a full ring ahead by now. */
  lemma PendingIsHonest(g: Wire.Geometry, s: State, want: nat)
    requires StateOk(g, s) && Gapless(s) && want >= 1 && ReadStep(s.ring, want, Start) == Done(Pending)
    ensures want > Finished(s) || want + s.ring.cap <= s.ring.top
  {
    FinishedIsSent(g, s);
    if want <= Finished(s) { ReusedSlot(s.ring, want); }
  }

  /** What the outcome of a fetch says of the concrete ring. */
  predicate OutcomeTrue(s: State, want: nat, res: Wire.RawRead) {
    match res
    case Item(r) => want in s.ring.hist && want in s.sent && r == RecordOf(s.sent[want])
    case Pending => want > Finished(s) || want + s.ring.cap <= s.ring.top
    case Overwritten(seen) => want + s.ring.cap <= s.ring.top && (seen != 0 ==> seen in s.ring.hist)
    case Lost => want in s.ring.hist && BlobLapped(s, want)
  }

  lemma OutcomeIsHonest(g: Wire.Geometry, s: State, want: nat, res: Wire.RawRead)
    requires SourceInv(g, s) && want >= 1 && OutcomeTrue(s, want, res)
    ensures Listed(s) && SourceRing.ReadOk(Abs(s), want, res)
  {
    FinishedIsSent(g, s);
  }

  lemma SlotStepKeeps(g: Wire.Geometry, s: State, want: nat, f: Fetch)
    requires SourceInv(g, s) && want >= 1 && FetchInv(s, want, f) && f.InSlot? && Fetchable(s, want, f)
    ensures var f' := FetchStep(g, s, want, f);
            FetchInv(s, want, f') && (f'.Fetched? ==> OutcomeTrue(s, want, f'.res))
  {
    ReadStepKeeps(s.ring, want, f.rd);
    if f.rd == Start && ReadStep(s.ring, want, Start) == Done(Pending) { PendingIsHonest(g, s, want); }
    if want in s.ring.hist { MessageNamed(g, s, want); }
  }

  lemma ArenaStepKeeps(g: Wire.Geometry, s: State, want: nat, f: Fetch)
    requires SourceInv(g, s) && want >= 1 && FetchInv(s, want, f) && f.InArena? && Fetchable(s, want, f)
    ensures var f' := FetchStep(g, s, want, f);
            FetchInv(s, want, f') && (f'.Fetched? ==> OutcomeTrue(s, want, f'.res))
  {
    MessageBounds(g, s, want);
    if |f.buf| < f.blob.len { CopyByte(g, s, want, f.buf); }
  }

  /** One load of a fetch keeps what it knows, and an outcome is true of the ring at its last load. */
  lemma FetchStepKeeps(g: Wire.Geometry, s: State, want: nat, f: Fetch)
    requires SourceInv(g, s) && want >= 1 && FetchInv(s, want, f) && Fetchable(s, want, f)
    ensures var f' := FetchStep(g, s, want, f);
            && FetchInv(s, want, f') && Listed(s)
            && (f'.Fetched? ==> SourceRing.ReadOk(Abs(s), want, f'.res))
  {
    if f.InSlot? { SlotStepKeeps(g, s, want, f); } else { ArenaStepKeeps(g, s, want, f); }
    FinishedIsSent(g, s);
    var f' := FetchStep(g, s, want, f);
    if f'.Fetched? { OutcomeIsHonest(g, s, want, f'.res); }
  }

  /** A fetch survives whatever the producer does. */
  lemma FetchUndisturbed(g: Wire.Geometry, s: State, s': State, step: PushStep, want: nat, f: Fetch)
    requires StateOk(g, s) && Pushes(g, s, s', step) && want >= 1 && FetchInv(s, want, f)
    ensures Shape(s'.ring) && FetchInv(s', want, f)
  {
    PushKeeps(g, s, s', step);
    RingMoves(g, s, s', step);
    match f
    case InSlot(rd) => ReadMoves(g, s, s', step, want, rd);
    case InArena(_, _, buf) => CopyUndisturbed(s, s', s.sent[want], buf);
    case Fetched(_) =>
  }

  // ------------------------------------------------------------------ a read comes to its end

  /** So many loads while the producer stands still. */
  predicate FetchesTo(g: Wire.Geometry, s: State, want: nat, f: Fetch, f': Fetch, n: nat)
    decreases n
  {
    if n == 0 then f == f' else Fetchable(s, want, f) && FetchesTo(g, s, want, FetchStep(g, s, want, f), f', n - 1)
  }

  function Stage(f: Fetch): nat {
    match f
    case InSlot(rd) => if rd.Start? then 3 else 2
    case InArena(_, _, _) => 1
    case Fetched(_) => 0
  }

  function LeftToCopy(s: State, f: Fetch): nat {
    match f
    case InSlot(rd) => if rd.Copied? && |rd.buf| <= s.ring.width then s.ring.width - |rd.buf| else 0
    case InArena(_, b, buf) => if |buf| <= b.len then b.len - |buf| else 0
    case Fetched(_) => 0
  }

  lemma FetchComesCloser(g: Wire.Geometry, s: State, want: nat, f: Fetch)
    requires Fetchable(s, want, f)
    ensures var f' := FetchStep(g, s, want, f);
            Stage(f') < Stage(f) || (Stage(f') == Stage(f) && LeftToCopy(s, f') < LeftToCopy(s, f))
  {
  }

  /** A message in its slot on a ring without holes, with its payload not lapped, can only be read. */
  lemma PresentMeansItem(g: Wire.Geometry, s: State, want: nat, res: Wire.RawRead)
    requires SourceInv(g, s) && want >= 1 && Listed(s) && SourceRing.ReadOk(Abs(s), want, res)
    requires want in s.ring.hist && Readable(s.ring, want) && want in s.sent && !BlobLapped(s, want)
    ensures res == Wire.Item(RecordOf(s.sent[want]))
  {
    FinishedIsSent(g, s);
    DenseGone(s.ring, want);
  }

  ghost predicate Fetches(g: Wire.Geometry, s: State, want: nat, f: Fetch, f': Fetch) {
    exists n: nat :: FetchesTo(g, s, want, f, f', n)
  }

  lemma FetchesFirst(g: Wire.Geometry, s: State, want: nat, f: Fetch, f': Fetch)
    requires Fetchable(s, want, f) && Fetches(g, s, want, FetchStep(g, s, want, f), f')
    ensures Fetches(g, s, want, f, f')
  {
    var n: nat :| FetchesTo(g, s, want, FetchStep(g, s, want, f), f', n);
    assert FetchesTo(g, s, want, f, f', n + 1);
  }

  lemma NextFetch(g: Wire.Geometry, s: State, want: nat, f: Fetch) returns (f': Fetch)
    requires SourceInv(g, s) && want >= 1 && FetchInv(s, want, f) && !f.Fetched?
    ensures Fetchable(s, want, f) && f' == FetchStep(g, s, want, f) && FetchInv(s, want, f')
    ensures Stage(f') < Stage(f) || (Stage(f') == Stage(f) && LeftToCopy(s, f') < LeftToCopy(s, f))
    ensures f'.Fetched? ==> Listed(s) && SourceRing.ReadOk(Abs(s), want, f'.res)
  {
    OkIsFetchable(g, s, want, f);
    FetchStepKeeps(g, s, want, f);
    FetchComesCloser(g, s, want, f);
    f' := FetchStep(g, s, want, f);
  }

  /** With the producer at rest a read under way ends after finitely many loads, with a true result. */
  lemma {:induction false} FetchEnds(g: Wire.Geometry, s: State, want: nat, f: Fetch) returns (res: Wire.RawRead)
    requires SourceInv(g, s) && want >= 1 && FetchInv(s, want, f) && !f.Fetched?
    ensures Fetches(g, s, want, f, Fetched(res)) && Listed(s) && SourceRing.ReadOk(Abs(s), want, res)
    decreases Stage(f), LeftToCopy(s, f)
  {
    var f' := NextFetch(g, s, want, f);
    if f'.Fetched? {
      res := f'.res;
      assert FetchesTo(g, s, want, f', Fetched(res), 0);
    } else {
      res := FetchEnds(g, s, want, f');
    }
    FetchesFirst(g, s, want, f, Fetched(res));
  }

  /** So with the producer at rest a message that is there is read, whole, by finitely many loads from
      wherever the read stands. */
  lemma PresentIsFetched(g: Wire.Geometry, want: nat, run: seq<System>, i: nat)
    requires Run(g, want, run) && i < |run| && !run[i].fetch.Fetched?
    requires want in run[i].state.ring.hist && Shape(run[i].state.ring) && Readable(run[i].state.ring, want)
    requires want in run[i].state.sent && !BlobLapped(run[i].state, want)
    ensures var (s, f) := (run[i].state, run[i].fetch);
            Fetches(g, s, want, f, Fetched(Wire.Item(RecordOf(s.sent[want]))))
  {
    RunKeeps(g, want, run, i);
    var res := FetchEnds(g, run[i].state, want, run[i].fetch);
    PresentMeansItem(g, run[i].state, want, res);
  }

  // ------------------------------------------------------------------ flags across a mirror

  /** No record a producer makes has an empty blob with flags set. */
  lemma EmptyBlobsHaveNoFlags(g: Wire.Geometry, s: State, i: nat)
    requires SourceInv(g, s) && g.hasArena && i in s.sent && s.sent[i].payload == []
    ensures |s.sent[i].descriptor| >= Wire.BLOB_REF_LEN && Wire.BlobFlags(s.sent[i].descriptor) == 0
  {
    assert PacketOk(g, s, s.sent[i]);
  }

  /** So a mirror keeps length and flags of every blob the source can hold, wherever it places it. */
  lemma MirrorKeepsFlags(g: Wire.Geometry, s: State, i: nat, offset: Wire.U64)
    requires SourceInv(g, s) && g.hasArena && i in s.sent
    ensures |s.sent[i].descriptor| >= Wire.BLOB_REF_LEN
    ensures var r := RecordOf(s.sent[i]); var d := Mirror.Relocated(r, offset);
            Wire.BlobFlags(d) == Wire.BlobFlags(r.descriptor) && Wire.BlobLen(d) == |r.blob|
  {
    RecordFits(g, s, i);
    var r := RecordOf(s.sent[i]);
    Wire.WordWidths();
    Wire.LeValueBound(r.descriptor[|r.descriptor| - 8..|r.descriptor| - 4]);
    Mirror.RelocationKeeps(g, r, offset);
    if r.blob == [] { EmptyBlobsHaveNoFlags(g, s, i); }
  }

  // ------------------------------------------------------------------ runs

  datatype System = System(state: State, fetch: Fetch)

  ghost predicate Steps(g: Wire.Geometry, want: nat, s: System, s': System) {
    || (Fetchable(s.state, want, s.fetch) && s' == s.(fetch := FetchStep(g, s.state, want, s.fetch)))
    || (&& s'.fetch == s.fetch && AllFramable(s'.state)
        && exists step :: Pushes(g, s.state, s'.state, step) && ByProducer(s.state, step))
  }

  ghost predicate StepAt(g: Wire.Geometry, want: nat, run: seq<System>, i: nat)
    requires 0 < i < |run|
  {
    Steps(g, want, run[i - 1], run[i])
  }

  /** One read of record `want`, begun in any reachable state of the ring. */
  ghost predicate Run(g: Wire.Geometry, want: nat, run: seq<System>) {
    && run != [] && want >= 1 && SourceInv(g, run[0].state) && run[0].fetch == InSlot(Start)
    && forall i :: 0 < i < |run| ==> StepAt(g, want, run, i)
  }

  lemma StepKeeps(g: Wire.Geometry, want: nat, s: System, s': System)
    requires want >= 1 && SourceInv(g, s.state) && FetchInv(s.state, want, s.fetch) && Steps(g, want, s, s')
    ensures SourceInv(g, s'.state) && FetchInv(s'.state, want, s'.fetch) && Listed(s'.state)
    ensures s.fetch != s'.fetch && s'.fetch.Fetched? ==> SourceRing.ReadOk(Abs(s'.state), want, s'.fetch.res)
  {
    FinishedIsSent(g, s.state);
    if s'.fetch == s.fetch && AllFramable(s'.state)
       && exists step :: Pushes(g, s.state, s'.state, step) && ByProducer(s.state, step) {
      var step :| Pushes(g, s.state, s'.state, step) && ByProducer(s.state, step);
      ProducerRefines(g, s.state, s'.state, step);
      FetchUndisturbed(g, s.state, s'.state, step, want, s.fetch);
    } else {
      FetchStepKeeps(g, s.state, want, s.fetch);
    }
  }

  lemma {:induction false} RunKeeps(g: Wire.Geometry, want: nat, run: seq<System>, i: nat)
    requires Run(g, want, run) && i < |run|
    ensures SourceInv(g, run[i].state) && FetchInv(run[i].state, want, run[i].fetch)
  {
    if i > 0 {
      RunKeeps(g, want, run, i - 1);
      assert StepAt(g, want, run, i);
      StepKeeps(g, want, run[i - 1], run[i]);
    }
  }

  /** Whatever `read_record` returns is true of the ring at its last load: the whole record, not
      there yet, a full ring gone, or its blob lapped. */
  lemma ReadsAreHonest(g: Wire.Geometry, want: nat, run: seq<System>, i: nat)
    requires Run(g, want, run) && 0 < i < |run| && !run[i - 1].fetch.Fetched? && run[i].fetch.Fetched?
    ensures Listed(run[i].state) && SourceRing.SourceOk(g, Abs(run[i].state))
    ensures SourceRing.ReadOk(Abs(run[i].state), want, run[i].fetch.res)
  {
    RunKeeps(g, want, run, i - 1);
    assert StepAt(g, want, run, i);
    StepKeeps(g, want, run[i - 1], run[i]);
    AbsOk(g, run[i].state);
  }

  /** A read never gets stuck: until it has a result its next load is defined. */
  lemma ReadsGoOn(g: Wire.Geometry, want: nat, run: seq<System>, i: nat)
    requires Run(g, want, run) && i < |run| && !run[i].fetch.Fetched?
    ensures Fetchable(run[i].state, want, run[i].fetch)
  {
    RunKeeps(g, want, run, i);
    OkIsFetchable(g, run[i].state, want, run[i].fetch);
  }
}
