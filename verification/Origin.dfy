/** Replication of the concrete ring: a producer writes slots and arena word by word and byte by byte,
    the source's threads read them load by load, and what they read goes to the mirror. */
module Origin {
  import opened Basics
  import opened BlobRing
  import opened SourceReads
  import Account
  import R = Replica
  import SlotProtocol
  import SourceRing
  import opened Stream
  import Wire

  /** Reads in progress of the two threads. */
  datatype System = System(state: State, sending: Option<Fetch>, answering: Option<Fetch>, net: R.Net)

  function FetchOf(s: System, r: R.Reader): Option<Fetch> { if r.Sending? then s.sending else s.answering }

  function WithFetch(s: System, r: R.Reader, f: Option<Fetch>): System {
    if r.Sending? then s.(sending := f) else s.(answering := f)
  }

  datatype Step = Push(p: PushStep) | BeginRead(r: R.Reader) | Load(r: R.Reader) | Other(step: R.Step)

  /** One load of a thread's read; with the last one it takes in the outcome. */
  predicate Loads(c: Config, s: System, s': System, r: R.Reader) {
    && FetchOf(s, r).Some? && Fetchable(s.state, R.Want(s.net, r), FetchOf(s, r).value)
    && var f := FetchStep(c.g, s.state, R.Want(s.net, r), FetchOf(s, r).value);
    if f.Fetched? then R.Takes(c, s.net, s'.net, r, f.res) && s' == WithFetch(s.(net := s'.net), r, None)
    else s' == WithFetch(s, r, Some(f))
  }

  /** A thread that is reading does nothing else. */
  predicate Busy(s: System, step: R.Step) {
    (s.sending.Some? && R.OwnStep(R.Sending, step)) || (s.answering.Some? && R.OwnStep(R.Answering, step))
  }

  ghost predicate NextStep(c: Config, s: System, s': System, step: Step) {
    && ConfigOk(c)
    && match step
    case Push(p) =>
      && Pushes(c.g, s.state, s'.state, p) && ByProducer(s.state, p) && AllFramable(s'.state) && Listed(s'.state)
      && s' == s.(state := s'.state, net := s.net.With(Abs(s'.state)))
    case BeginRead(r) =>
      R.GatherOf(s.net, r).Some? && FetchOf(s, r).None? && s' == WithFetch(s, r, Some(InSlot(SlotProtocol.Start)))
    case Load(r) => Loads(c, s, s', r)
    case Other(u) =>
      && R.NextStep(c, s.net, s'.net, u) && !R.IsProduce(u) && !R.Reads(u) && !Busy(s, u)
      && s' == s.(net := s'.net)
  }

  /** A mirror connects to a source whose ring is in any reachable state. */
  ghost predicate Init(c: Config, s: System) {
    && ConfigOk(c) && SourceInv(c.g, s.state) && s.sending.None? && s.answering.None?
    && R.Init(c, s.net) && Listed(s.state) && s.net.Src() == Abs(s.state)
  }

  // ------------------------------------------------------------------ invariant

  predicate FetchOk(s: State, want: nat, f: Option<Fetch>)
    requires SlotProtocol.Shape(s.ring)
  {
    f.Some? ==> !f.value.Fetched? && FetchInv(s, want, f.value)
  }

  /** The reads in progress know what they read, and the network sees the ring as it is. */
  predicate Tied(c: Config, s: System) {
    && ConfigOk(c) && SourceInv(c.g, s.state) && Listed(s.state) && s.net.Src() == Abs(s.state)
  }

  predicate Fetches(s: System)
    requires SlotProtocol.Shape(s.state.ring)
  {
    FetchOk(s.state, R.Want(s.net, R.Sending), s.sending) && FetchOk(s.state, R.Want(s.net, R.Answering), s.answering)
  }

  ghost predicate Inv(c: Config, s: System) { R.Inv(c, s.net) && Tied(c, s) && Fetches(s) }

  lemma InitHolds(c: Config, s: System)
    requires Init(c, s)
    ensures Inv(c, s)
  {
    R.InitHolds(c, s.net);
  }

  // ------------------------------------------------------------------ steps

  lemma PushKeepsFetch(c: Config, s: State, s': State, p: PushStep, want: nat, f: Option<Fetch>)
    requires StateOk(c.g, s) && Pushes(c.g, s, s', p) && want >= 1 && FetchOk(s, want, f)
    ensures SlotProtocol.Shape(s'.ring) && FetchOk(s', want, f)
  {
    PushKeeps(c.g, s, s', p);
    if f.Some? { FetchUndisturbed(c.g, s, s', p, want, f.value); }
  }

  lemma NetSteps(c: Config, n: R.Net, n': R.Net, step: R.Step)
    requires R.Inv(c, n) && R.NextStep(c, n, n', step)
    ensures R.Inv(c, n') && R.Grows(n, n')
  {
    R.StepKeeps(c, n, n', step);
    R.NetGrows(c, n, n', step);
  }

  /** What a push does to the network's view of the ring: an abstract step, or nothing. */
  lemma PushIsSeen(c: Config, s: State, s': State, p: PushStep, n: R.Net)
    requires ConfigOk(c) && SourceInv(c.g, s) && Listed(s) && Pushes(c.g, s, s', p) && ByProducer(s, p) && AllFramable(s')
    requires R.Inv(c, n) && n.Src() == Abs(s)
    ensures SourceInv(c.g, s') && Listed(s') && R.Inv(c, n.With(Abs(s'))) && n.With(Abs(s')).Src() == Abs(s')
    ensures R.Grows(n, n.With(Abs(s')))
  {
    ProducerRefines(c.g, s, s', p);
    R.IsLive(c, n);
    var a := AbsStep(s, s', p);
    if a.Some? {
      R.ProduceIsStep(c, n, Abs(s'), a.value);
      NetSteps(c, n, n.With(Abs(s')), R.ProduceStep(n, a.value));
    } else {
      assert n.With(Abs(s')) == n;
    }
  }

  lemma WantsStay(n: R.Net, src: SourceRing.Source, r: R.Reader)
    ensures R.Want(n.With(src), r) == R.Want(n, r)
  {
  }

  lemma PushStepKeeps(c: Config, s: System, s': System, p: PushStep)
    requires Inv(c, s) && NextStep(c, s, s', Push(p))
    ensures Inv(c, s') && R.Grows(s.net, s'.net)
  {
    PushIsSeen(c, s.state, s'.state, p, s.net);
    R.WantIsPositive(c, s.net, R.Sending);
    R.WantIsPositive(c, s.net, R.Answering);
    PushKeepsFetch(c, s.state, s'.state, p, R.Want(s.net, R.Sending), s.sending);
    PushKeepsFetch(c, s.state, s'.state, p, R.Want(s.net, R.Answering), s.answering);
    WantsStay(s.net, Abs(s'.state), R.Sending);
    WantsStay(s.net, Abs(s'.state), R.Answering);
  }

  function OtherReader(r: R.Reader): R.Reader { if r.Sending? then R.Answering else R.Sending }

  /** The other thread does not notice. */
  lemma TakesLeavesOther(c: Config, n: R.Net, n': R.Net, r: R.Reader, res: Wire.RawRead)
    requires R.Takes(c, n, n', r, res)
    ensures R.Want(n', OtherReader(r)) == R.Want(n, OtherReader(r)) && n'.Src() == n.Src()
  {
  }

  lemma TakenIn(c: Config, n: R.Net, n': R.Net, r: R.Reader, res: Wire.RawRead)
    requires ConfigOk(c) && R.Inv(c, n) && R.Takes(c, n, n', r, res)
    requires SourceRing.ReadOk(n.Src(), R.Want(n, r), res)
    ensures R.Inv(c, n') && R.Grows(n, n')
  {
    R.IsLive(c, n);
    R.TakesIsStep(c, n, n', r, res);
    NetSteps(c, n, n', R.ReadStep(n, r, res));
  }

  /** A read's outcome is what the abstract ring allows, so taking it in is a step of the network. */
  lemma LoadStepKeeps(c: Config, s: System, s': System, r: R.Reader)
    requires Inv(c, s) && NextStep(c, s, s', Load(r))
    ensures Inv(c, s') && R.Grows(s.net, s'.net)
  {
    R.WantIsPositive(c, s.net, r);
    FetchStepKeeps(c.g, s.state, R.Want(s.net, r), FetchOf(s, r).value);
    var f := FetchStep(c.g, s.state, R.Want(s.net, r), FetchOf(s, r).value);
    if f.Fetched? {
      TakenIn(c, s.net, s'.net, r, f.res);
      TakesLeavesOther(c, s.net, s'.net, r, f.res);
    }
  }

  lemma OtherKeepsFetch(c: Config, s: System, s': System, u: R.Step, r: R.Reader)
    requires SlotProtocol.Shape(s.state.ring) && NextStep(c, s, s', Other(u))
    requires FetchOk(s.state, R.Want(s.net, r), FetchOf(s, r))
    ensures FetchOk(s'.state, R.Want(s'.net, r), FetchOf(s', r))
  {
    if FetchOf(s, r).Some? { R.OthersLeaveWant(c, s.net, s'.net, u, r); }
  }

  lemma OtherStepKeeps(c: Config, s: System, s': System, u: R.Step)
    requires Inv(c, s) && NextStep(c, s, s', Other(u))
    ensures Inv(c, s') && R.Grows(s.net, s'.net)
  {
    NetSteps(c, s.net, s'.net, u);
    R.SourceStays(c, s.net, s'.net, u);
    OtherKeepsFetch(c, s, s', u, R.Sending);
    OtherKeepsFetch(c, s, s', u, R.Answering);
  }

  lemma BeginReadKeeps(c: Config, s: System, s': System, r: R.Reader)
    requires Inv(c, s) && NextStep(c, s, s', BeginRead(r))
    ensures Inv(c, s') && s'.net == s.net
  {
  }

  lemma StepKeeps(c: Config, s: System, s': System, step: Step)
    requires Inv(c, s) && NextStep(c, s, s', step)
    ensures Inv(c, s') && R.Grows(s.net, s'.net)
  {
    match step
    case Push(p) => PushStepKeeps(c, s, s', p);
    case BeginRead(r) => BeginReadKeeps(c, s, s', r);
    case Load(r) => LoadStepKeeps(c, s, s', r);
    case Other(u) => OtherStepKeeps(c, s, s', u);
  }

  // ------------------------------------------------------------------ runs

  ghost predicate Steps(c: Config, s: System, s': System) { exists step :: NextStep(c, s, s', step) }

  /** Some run of `n` steps leads to `s`. */
  ghost predicate Reaches(c: Config, s: System, n: nat)
    decreases n
  {
    if n == 0 then Init(c, s) else exists p :: Reaches(c, p, n - 1) && Steps(c, p, s)
  }

  ghost predicate Reachable(c: Config, s: System) { exists n: nat :: Reaches(c, s, n) }

  /** A run of `n` steps leads to `s` that keeps the invariant all the way. */
  ghost predicate Safely(c: Config, s: System, n: nat)
    decreases n
  {
    Inv(c, s) && (n > 0 ==> exists p :: Safely(c, p, n - 1) && Steps(c, p, s))
  }

  lemma FirstIsSafe(c: Config, s: System)
    requires Reaches(c, s, 0)
    ensures Safely(c, s, 0)
  {
    InitHolds(c, s);
  }

  lemma NextIsSafe(c: Config, s: System, n: nat)
    requires Reaches(c, s, n + 1) && forall p :: Reaches(c, p, n) ==> Safely(c, p, n)
    ensures Safely(c, s, n + 1)
  {
    var p :| Reaches(c, p, n) && Steps(c, p, s);
    var step :| NextStep(c, p, s, step);
    StepKeeps(c, p, s, step);
  }

  lemma {:induction false} RunKeeps(c: Config, s: System, n: nat)
    requires Reaches(c, s, n)
    ensures Safely(c, s, n)
    decreases n
  {
    if n == 0 {
      FirstIsSafe(c, s);
    } else {
      var m := n - 1;
      forall p | Reaches(c, p, m) ensures Safely(c, p, m) { RunKeeps(c, p, m); }
      NextIsSafe(c, s, m);
    }
  }

  /** One step more. */
  lemma GoesOn(c: Config, s: System, s': System, step: Step)
    requires Reachable(c, s) && NextStep(c, s, s', step)
    ensures Reachable(c, s') && R.Grows(s.net, s'.net)
  {
    var n: nat :| Reaches(c, s, n);
    RunKeeps(c, s, n);
    StepKeeps(c, s, s', step);
    assert Steps(c, s, s');
    assert Reaches(c, s', n + 1);
  }

  // ------------------------------------------------------------------ what the mirror makes of the concrete ring

  lemma SourceFacts(c: Config, s: System)
    requires Reachable(c, s)
    ensures Listed(s.state) && s.net.Src() == Abs(s.state) && SourceRing.SourceOk(c.g, s.net.Src())
  {
    var n: nat :| Reaches(c, s, n);
    RunKeeps(c, s, n);
    AbsOk(c.g, s.state);
  }

  /** In every reachable state of producer, reads, network and mirror each sequence from the mirror's
      first one to its position was written once, in increasing order, or given up after the source had
      lost it. */
  lemma EverySequenceAccountedFor(c: Config, s: System)
    requires Reachable(c, s)
    ensures Account.Accounted(s.net.Src(), s.net.First(), s.net.Mirror(), s.net.Skipped())
  {
    var n: nat :| Reaches(c, s, n);
    RunKeeps(c, s, n);
    R.Balanced(c, s.net);
  }

  /** What the mirror wrote under a sequence is what the producer of the concrete ring pushed under it,
      slot payload and blob bytes, however its reads were interleaved with the producer's stores. */
  lemma MirrorWritesWhatWasPushed(c: Config, s: System, k: nat)
    requires Reachable(c, s) && k < |s.net.Mirror().log|
    ensures var e := s.net.Mirror().log[k]; e.seq_ in s.state.sent && e.record == RecordOf(s.state.sent[e.seq_])
  {
    SourceFacts(c, s);
    EverySequenceAccountedFor(c, s);
    var e := s.net.Mirror().log[k];
    assert e.record == s.net.Src().pushed[e.seq_ - 1];
  }

  /** A read under way never gets stuck: its next load is defined and in bounds. */
  lemma ReadsGoOn(c: Config, s: System, r: R.Reader)
    requires Reachable(c, s) && FetchOf(s, r).Some?
    ensures Fetchable(s.state, R.Want(s.net, r), FetchOf(s, r).value)
  {
    var n: nat :| Reaches(c, s, n);
    RunKeeps(c, s, n);
    R.WantIsPositive(c, s.net, r);
    OkIsFetchable(c.g, s.state, R.Want(s.net, r), FetchOf(s, r).value);
  }
}
