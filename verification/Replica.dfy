/** A source and one mirror of it, whichever way the mirror is connected: what both modes have in
    common for everything built on top. */
module Replica {
  import opened Basics
  import opened Wire
  import opened SourceRing
  import opened Account
  import Faithful
  import M = Mirror
  import opened Stream
  import T = ReplicaTcp
  import U = ReplicaUdp

  datatype Net = Udp(u: U.System) | Tcp(t: T.System)
  {
    function Src(): Source { match this case Udp(u) => u.src case Tcp(t) => t.src }
    function Mirror(): M.State { match this case Udp(u) => u.m case Tcp(t) => t.m }
    /** The first sequence the mirror could receive. */
    function First(): nat { match this case Udp(u) => u.first case Tcp(t) => t.first }
    /** The sequences it gave up, each with the source as it was when it was told to. */
    function Skipped(): map<nat, Source> { match this case Udp(u) => u.skipped case Tcp(t) => t.skipped }
    function With(src: Source): Net { match this case Udp(u) => Udp(u.(src := src)) case Tcp(t) => Tcp(t.(src := src)) }
  }

  datatype Step = UdpStep(u: U.Step) | TcpStep(t: T.Step)

  ghost predicate NextStep(c: Config, n: Net, n': Net, step: Step) {
    match step
    case UdpStep(u) => n.Udp? && n'.Udp? && U.NextStep(c, n.u, n'.u, u)
    case TcpStep(t) => n.Tcp? && n'.Tcp? && T.NextStep(c, n.t, n'.t, t)
  }

  ghost predicate Init(c: Config, n: Net) {
    match n
    case Udp(u) => U.Init(c, u)
    case Tcp(t) => exists wanted, resumed :: T.Init(c, t, wanted, resumed)
  }

  ghost predicate Inv(c: Config, n: Net) {
    match n
    case Udp(u) => U.Inv(c, u)
    case Tcp(t) => T.Inv(c, t)
  }

  lemma InitHolds(c: Config, n: Net)
    requires Init(c, n)
    ensures Inv(c, n)
  {
    match n
    case Udp(u) => U.InitHolds(c, u);
    case Tcp(t) =>
      var wanted, resumed :| T.Init(c, t, wanted, resumed);
      T.InitHolds(c, t, wanted, resumed);
  }

  lemma StepKeeps(c: Config, n: Net, n': Net, step: Step)
    requires Inv(c, n) && NextStep(c, n, n', step)
    ensures Inv(c, n')
  {
    match step
    case UdpStep(u) => U.StepKeeps(c, n.u, n'.u, u);
    case TcpStep(t) => T.StepKeeps(c, n.t, n'.t, t);
  }

  /** In either mode every sequence is written once, as pushed, or given up after it was lost. */
  lemma Balanced(c: Config, n: Net)
    requires Inv(c, n)
    ensures Accounted(n.Src(), n.First(), n.Mirror(), n.Skipped())
  {
  }

  // ------------------------------------------------------------------ what only grows

  predicate Grows(n: Net, n': Net) {
    n.Src().pushed <= n'.Src().pushed && n.Mirror().log <= n'.Mirror().log && n'.First() == n.First()
  }

  lemma DatagramGrows(c: Config, s: U.System, s': U.System, d: U.Datagram, expired: bool)
    requires ConfigOk(c) && U.Inv(c, s) && U.DatagramArrival(c, s, s', d, expired)
    ensures s.m.log <= s'.m.log
  {
    U.DatagramArrives(c, s.src, s.m, d, expired);
    if d.Records? { Faithful.AppliedHonest(c.g, s.src.pushed, s.m, d.seq_, |d.records|, expired); }
  }

  lemma ControlGrows(c: Config, s: U.System, s': U.System, expired: bool)
    requires ConfigOk(c) && U.Inv(c, s) && U.ControlArrival(c, s, s', expired)
    ensures s.m.log <= s'.m.log
  {
    U.NextInLine(c, s);
    var a := s.tcp[s.taken];
    if a.Data? { U.DataEffect(c, s.src, s.m, a, expired); } else { U.GapEffect(c, s.src, s.m, a, expired); }
  }

  lemma UdpGrows(c: Config, s: U.System, s': U.System, u: U.Step)
    requires U.Inv(c, s) && U.NextStep(c, s, s', u)
    ensures Grows(Udp(s), Udp(s'))
  {
    match u
    case MirrorDatagram(d, expired) => DatagramGrows(c, s, s', d, expired);
    case MirrorControl(expired) => ControlGrows(c, s, s', expired);
    case _ =>
  }

  lemma ArrivalGrows(c: Config, s: T.System, s': T.System)
    requires ConfigOk(c) && T.Inv(c, s) && T.Arrives(c, s, s')
    ensures s.m.log <= s'.m.log
  {
    T.NextInLine(c, s);
    var a := s.tcp[s.taken];
    if a.Data? { T.DataEffect(c, s.src, s.m, a); } else { T.GapEffect(c, s.src, s.m, a); }
  }

  lemma TcpGrows(c: Config, s: T.System, s': T.System, t: T.Step)
    requires T.Inv(c, s) && T.NextStep(c, s, s', t)
    ensures Grows(Tcp(s), Tcp(s'))
  {
    match t
    case Arrive => ArrivalGrows(c, s, s');
    case _ =>
  }

  lemma NetGrows(c: Config, n: Net, n': Net, step: Step)
    requires Inv(c, n) && NextStep(c, n, n', step)
    ensures Grows(n, n')
  {
    match step
    case UdpStep(u) => UdpGrows(c, n.u, n'.u, u);
    case TcpStep(t) => TcpGrows(c, n.t, n'.t, t);
  }

  // ------------------------------------------------------------------ reads of the source

  /** The threads that read the source's ring: the one that sends records as they come (the only one
      of a TCP connection) and, over UDP, the one that answers requests. */
  datatype Reader = Sending | Answering

  function GatherOf(n: Net, r: Reader): Option<Gather> {
    match n
    case Tcp(t) => if r.Sending? then Some(t.gather) else None
    case Udp(u) =>
      if r.Sending? then Some(u.sender) else if u.server.Serving? then Some(u.server.gather) else None
  }

  /** The record a thread reads next. */
  function Want(n: Net, r: Reader): nat {
    var g := GatherOf(n, r);
    if g.Some? then g.value.cursor + |g.value.records| else 1
  }

  /** The thread takes in what its read returned. */
  predicate Takes(c: Config, n: Net, n': Net, r: Reader, res: RawRead) {
    match n
    case Tcp(t) => n'.Tcp? && r.Sending? && T.Takes(c, t, n'.t, res)
    case Udp(u) => n'.Udp? && if r.Sending? then U.SenderTakes(c, u, n'.u, res) else U.ServerTakes(c, u, n'.u, res)
  }

  function ReadStep(n: Net, r: Reader, res: RawRead): Step {
    match n
    case Tcp(_) => TcpStep(T.Read(res))
    case Udp(_) => UdpStep(if r.Sending? then U.SenderRead(res) else U.ServerRead(res))
  }

  /** The mirror is still running. */
  predicate Live(n: Net) {
    n.Src().cap >= 1 && match n case Udp(u) => M.Positive(u.m) case Tcp(t) => !t.m.failed && t.m.next >= 1
  }

  lemma IsLive(c: Config, n: Net)
    requires Inv(c, n)
    ensures Live(n)
  {
  }

  /** Taking in a true outcome is a step. */
  lemma TakesIsStep(c: Config, n: Net, n': Net, r: Reader, res: RawRead)
    requires ConfigOk(c) && Live(n) && Takes(c, n, n', r, res) && ReadOk(n.Src(), Want(n, r), res)
    ensures NextStep(c, n, n', ReadStep(n, r, res))
  {
  }

  lemma WantIsPositive(c: Config, n: Net, r: Reader)
    requires Inv(c, n)
    ensures Want(n, r) >= 1
  {
  }

  /** The step is one of the thread's own between two reads; the other threads go on meanwhile. */
  predicate OwnStep(r: Reader, step: Step) {
    match step
    case TcpStep(t) => r.Sending? && (t.Read? || t.FlushFrame? || t.Resync?)
    case UdpStep(u) =>
      if r.Sending? then u.SenderRead? || u.SenderFlush? || u.SenderResync? || u.SenderBeat?
      else u.ServerStart? || u.ServerRead? || u.ServerFlush? || u.ServerResync? || u.ServerDone?
  }

  predicate Reads(step: Step) {
    match step
    case TcpStep(t) => t.Read?
    case UdpStep(u) => u.SenderRead? || u.ServerRead?
  }

  predicate IsProduce(step: Step) { if step.TcpStep? then step.t.Produce? else step.u.Produce? }

  /** Steps of others leave a thread's cursor alone. */
  lemma OthersLeaveWant(c: Config, n: Net, n': Net, step: Step, r: Reader)
    requires NextStep(c, n, n', step) && !OwnStep(r, step)
    ensures Want(n', r) == Want(n, r)
  {
  }

  lemma SourceStays(c: Config, n: Net, n': Net, step: Step)
    requires NextStep(c, n, n', step) && !IsProduce(step)
    ensures n'.Src() == n.Src()
  {
  }

  function ProduceStep(n: Net, p: ProducerStep): Step {
    if n.Udp? then UdpStep(U.Produce(p)) else TcpStep(T.Produce(p))
  }

  lemma ProduceIsStep(c: Config, n: Net, src: Source, p: ProducerStep)
    requires ConfigOk(c) && Live(n) && Produces(c.g, n.Src(), src, p)
    ensures NextStep(c, n, n.With(src), ProduceStep(n, p)) && n.With(src).Src() == src
  {
  }
}
