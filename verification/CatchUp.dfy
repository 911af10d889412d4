/** A UDP mirror is never stuck: from wherever source, network and mirror stand, sending, answering,
    receiving and timing out can bring the mirror up to the source. */
module CatchUp {
  import opened Basics
  import opened Wire
  import opened SourceRing
  import opened Mirror
  import opened Stream
  import opened ReplicaUdp
  import F = Faithful

  // ------------------------------------------------------------------ a source that stands still

  /** The newest message in the slot of message `n`. */
  function Newest(n: nat, cap: nat, top: nat): (m: nat)
    requires cap >= 1
    ensures m >= n && (n <= top ==> m <= top < m + cap) && (n + cap <= top ==> m >= n + cap)
    decreases top - n
  {
    if n + cap <= top then Newest(n + cap, cap, top) else n
  }

  /** No push is under way. */
  predicate AtRest(s: Source) { s.cap >= 1 && s.begun == |s.pushed| }

  /** What a read returns while the source stands still. */
  function Outcome(s: Source, want: nat): RawRead
    requires AtRest(s) && want >= 1
  {
    if want > |s.pushed| then Pending
    else if want + s.cap <= |s.pushed| then Overwritten(Newest(want, s.cap, |s.pushed|))
    else if want in s.lapped then Lost
    else Item(s.pushed[want - 1])
  }

  lemma OutcomeIsHonest(s: Source, want: nat)
    requires AtRest(s) && want >= 1
    ensures ReadOk(s, want, Outcome(s, want))
  {
  }

  // ------------------------------------------------------------------ moves

  /** Sending, answering and receiving, with true reads of the source; nothing is pushed and of the
      datagrams only a heartbeat has to arrive. */
  predicate Helps(s: System, step: Step) {
    match step
    case Produce(_) => false
    case SenderRead(res) =>
      var want := s.sender.cursor + |s.sender.records|;
      AtRest(s.src) && want >= 1 && res == Outcome(s.src, want)
    case ServerRead(res) =>
      && s.server.Serving?
      && var want := s.server.gather.cursor + |s.server.gather.records|;
      AtRest(s.src) && want >= 1 && res == Outcome(s.src, want)
    case MirrorDatagram(d, _) => d.Beat?
    case _ => true
  }

  ghost predicate Move(c: Config, s: System, t: System) { exists step :: Helps(s, step) && NextStep(c, s, t, step) }

  /** `s` follows by `n` moves from `a`, where everything is in order and the source at rest. */
  ghost predicate Goes(c: Config, a: System, s: System, n: nat)
    decreases n
  {
    if n == 0 then s == a && ConfigOk(c) && Inv(c, a) && AtRest(a.src)
    else exists p :: Goes(c, a, p, n - 1) && Move(c, p, s)
  }

  ghost predicate From(c: Config, a: System, s: System) { exists n: nat :: Goes(c, a, s, n) }

  lemma Moves(c: Config, a: System, s: System, t: System, step: Step)
    requires From(c, a, s) && Helps(s, step) && NextStep(c, s, t, step)
    ensures From(c, a, t)
  {
    var n: nat :| Goes(c, a, s, n);
    assert Move(c, s, t);
    assert Goes(c, a, t, n + 1);
  }

  /** The invariant holds all along the way, and the source stays as it was. */
  ghost predicate Sound(c: Config, a: System, s: System, n: nat)
    decreases n
  {
    && Inv(c, s) && ConfigOk(c) && AtRest(s.src) && s.src == a.src
    && (n > 0 ==> exists p :: Sound(c, a, p, n - 1) && Move(c, p, s))
  }

  lemma NextIsSound(c: Config, a: System, s: System, n: nat)
    requires Goes(c, a, s, n + 1) && forall p :: Goes(c, a, p, n) ==> Sound(c, a, p, n)
    ensures Sound(c, a, s, n + 1)
  {
    var p :| Goes(c, a, p, n) && Move(c, p, s);
    var step :| Helps(p, step) && NextStep(c, p, s, step);
    StepKeeps(c, p, s, step);
  }

  lemma {:induction false} GoesSoundly(c: Config, a: System, s: System, n: nat)
    requires Goes(c, a, s, n)
    ensures Sound(c, a, s, n)
    decreases n
  {
    if n > 0 {
      var m := n - 1;
      forall p | Goes(c, a, p, m) ensures Sound(c, a, p, m) { GoesSoundly(c, a, p, m); }
      NextIsSound(c, a, s, m);
    }
  }

  /** What the moves below rely on. */
  predicate Ready(c: Config, s: System) {
    && ConfigOk(c) && AtRest(s.src) && SourceOk(c.g, s.src) && Positive(s.m) && s.m.next <= |s.src.pushed| + 1
    && GatherOk(c, s.src, s.sender) && s.taken <= |s.tcp| && s.served <= |s.m.sent|
    && (s.server.Serving? ==>
          && GatherOk(c, s.src, s.server.gather)
          && s.server.gather.cursor <= Reached(s.tcp[s.taken..], s.m.next))
  }

  lemma IsReady(c: Config, a: System, s: System)
    requires From(c, a, s)
    ensures Ready(c, s) && s.src == a.src
  {
    var n: nat :| Goes(c, a, s, n);
    GoesSoundly(c, a, s, n);
  }

  // ------------------------------------------------------------------ a cursor gets to the end

  /** The frame under construction is empty and no resynchronisation is due. */
  predicate Clear(t: Gather) { t.records == [] && t.resync.None? }

  /** What one read leads to, from a clear cursor that is not at the end. */
  lemma OneRead(s: Source, t: Gather)
    requires AtRest(s) && Clear(t) && 1 <= t.cursor <= |s.pushed|
    ensures var (u, _) := Gathered(s, t, Outcome(s, t.cursor));
            || (Clear(u) && u.cursor == t.cursor + 1)
            || (u.resync.None? && |u.records| == 1 && u.cursor == t.cursor)
            || (u.records == [] && u.resync.Some? && u.cursor == t.cursor && Resynced(s, u).0.cursor > t.cursor)
  {
  }

  // ------------------------------------------------------------------ the sender

  /** Only the sending thread has moved. */
  predicate SenderOnly(s: System, t: System) { t == s.(sender := t.sender, wire := t.wire) }

  function SenderTook(s: System, r: (Gather, seq<Answer>)): System {
    s.(sender := r.0, wire := s.wire + Datagrams(r.1))
  }

  lemma SenderClears(c: Config, a: System, s: System) returns (t: System)
    requires From(c, a, s)
    ensures From(c, a, t) && SenderOnly(s, t) && Clear(t.sender) && t.sender.cursor >= s.sender.cursor
    ensures s.sender.resync.Some? ==> t.sender.cursor >= Resynced(s.src, s.sender).0.cursor
    ensures s.sender.records != [] ==> t.sender.cursor > s.sender.cursor
  {
    IsReady(c, a, s);
    if s.sender.resync.Some? {
      t := SenderTook(s, Resynced(s.src, s.sender));
      Moves(c, a, s, t, SenderResync);
    } else if s.sender.records != [] {
      t := SenderTook(s, Flush(s.sender));
      Moves(c, a, s, t, SenderFlush);
    } else {
      t := s;
    }
  }

  lemma SenderAdvances(c: Config, a: System, s: System) returns (t: System)
    requires From(c, a, s) && Clear(s.sender) && s.sender.cursor <= |s.src.pushed|
    ensures From(c, a, t) && SenderOnly(s, t) && Clear(t.sender) && t.sender.cursor > s.sender.cursor
  {
    IsReady(c, a, s);
    var res := Outcome(s.src, s.sender.cursor);
    OutcomeIsHonest(s.src, s.sender.cursor);
    OneRead(s.src, s.sender);
    var u := SenderTook(s, Gathered(s.src, s.sender, res));
    Moves(c, a, s, u, SenderRead(res));
    t := SenderClears(c, a, u);
  }

  lemma {:induction false} SenderArrives(c: Config, a: System, s: System) returns (t: System)
    requires From(c, a, s) && Clear(s.sender)
    ensures From(c, a, t) && SenderOnly(s, t) && Clear(t.sender) && t.sender.cursor == |s.src.pushed| + 1
    decreases |s.src.pushed| + 1 - s.sender.cursor
  {
    IsReady(c, a, s);
    if s.sender.cursor == |s.src.pushed| + 1 {
      t := s;
    } else {
      var u := SenderAdvances(c, a, s);
      IsReady(c, a, u);
      t := SenderArrives(c, a, u);
    }
  }

  /** The sender announces the newest message. */
  lemma Beats(c: Config, a: System, s: System) returns (t: System)
    requires From(c, a, s)
    ensures From(c, a, t) && SenderOnly(s, t) && Beat(|s.src.pushed|) in t.wire
  {
    var u := SenderClears(c, a, s);
    var v := SenderArrives(c, a, u);
    t := v.(wire := v.wire + {Beat(|s.src.pushed|)});
    IsReady(c, a, v);
    Moves(c, a, v, t, SenderBeat);
  }

  // ------------------------------------------------------------------ the answering thread

  predicate ServerOnly(s: System, t: System) {
    t.src == s.src && t.sender == s.sender && t.wire == s.wire && t.taken == s.taken && t.m == s.m
  }

  function ServerTook(s: System, r: (Gather, seq<Answer>)): System
    requires s.server.Serving?
  {
    s.(server := s.server.(gather := r.0), tcp := s.tcp + r.1)
  }

  /** How far the answer in progress has come. */
  function Position(s: System): nat { if s.server.Serving? then s.server.gather.cursor else 0 }

  /** The mirror will get to `n` with the frames in flight. */
  predicate Promised(s: System, n: nat) { s.taken <= |s.tcp| && Reached(s.tcp[s.taken..], s.m.next) >= n }

  lemma ServerClears(c: Config, a: System, s: System) returns (t: System)
    requires From(c, a, s) && s.server.Serving?
    ensures From(c, a, t) && ServerOnly(s, t) && t.served == s.served && t.server.Serving? && t.server.to == s.server.to
    ensures Clear(t.server.gather) && Position(t) >= Position(s)
    ensures s.server.gather.resync.Some? ==> Position(t) >= Resynced(s.src, s.server.gather).0.cursor
    ensures s.server.gather.records != [] ==> Position(t) > Position(s)
  {
    IsReady(c, a, s);
    var g := s.server.gather;
    if g.resync.Some? {
      t := ServerTook(s, Resynced(s.src, g));
      Moves(c, a, s, t, ServerResync);
    } else if g.records != [] {
      t := ServerTook(s, Flush(g));
      Moves(c, a, s, t, ServerFlush);
    } else {
      t := s;
    }
  }

  lemma ServerAdvances(c: Config, a: System, s: System) returns (t: System)
    requires From(c, a, s) && s.server.Serving? && Clear(s.server.gather)
    requires Position(s) <= Min(s.server.to, |s.src.pushed|)
    ensures From(c, a, t) && ServerOnly(s, t) && t.served == s.served && t.server.Serving? && t.server.to == s.server.to
    ensures Clear(t.server.gather) && Position(t) > Position(s)
  {
    IsReady(c, a, s);
    var g := s.server.gather;
    var res := Outcome(s.src, g.cursor);
    OutcomeIsHonest(s.src, g.cursor);
    OneRead(s.src, g);
    var u := ServerTook(s, Gathered(s.src, g, res));
    Moves(c, a, s, u, ServerRead(res));
    t := ServerClears(c, a, u);
  }

  /** The thread is through with its answer. */
  lemma ServerEndsAnswer(c: Config, a: System, s: System) returns (t: System)
    requires From(c, a, s) && s.server.Serving? && Clear(s.server.gather)
    requires Position(s) > Min(s.server.to, |s.src.pushed|)
    ensures From(c, a, t) && t == s.(server := Idle) && Promised(t, Position(s))
  {
    IsReady(c, a, s);
    t := s.(server := Idle);
    if s.server.gather.cursor > s.server.to {
      Moves(c, a, s, t, ServerDone);
    } else {
      OutcomeIsHonest(s.src, s.server.gather.cursor);
      Moves(c, a, s, t, ServerRead(Pending));
    }
  }

  /** An answer begun is finished, and the mirror will get past what was asked for. */
  lemma {:induction false} Answers(c: Config, a: System, s: System) returns (t: System)
    requires From(c, a, s) && s.server.Serving? && Clear(s.server.gather)
    ensures From(c, a, t) && ServerOnly(s, t) && t.served == s.served && t.server.Idle?
    ensures Promised(t, Min(s.server.to, |s.src.pushed|) + 1)
    decreases |s.src.pushed| + 1 - Position(s)
  {
    IsReady(c, a, s);
    if Position(s) > Min(s.server.to, |s.src.pushed|) {
      t := ServerEndsAnswer(c, a, s);
    } else {
      var u := ServerAdvances(c, a, s);
      IsReady(c, a, u);
      t := Answers(c, a, u);
    }
  }

  lemma Idles(c: Config, a: System, s: System) returns (t: System)
    requires From(c, a, s)
    ensures From(c, a, t) && ServerOnly(s, t) && t.served == s.served && t.server.Idle?
  {
    if s.server.Idle? {
      t := s;
    } else {
      var u := ServerClears(c, a, s);
      t := Answers(c, a, u);
    }
  }

  /** So many requests wait for an answer. */
  predicate Waiting(s: System, k: nat) { s.server.Idle? && s.served + k == |s.m.sent| }

  /** The next request is answered in full. */
  lemma AnswersNext(c: Config, a: System, s: System, k: nat, n: nat) returns (t: System)
    requires From(c, a, s) && Waiting(s, k + 1) && n == Min(s.m.sent[s.served].to, |s.src.pushed|) + 1
    ensures From(c, a, t) && ServerOnly(s, t) && Waiting(t, k) && Promised(t, n)
  {
    IsReady(c, a, s);
    var nak := s.m.sent[s.served];
    var (g, q) := Started(s.src, nak.from);
    var u := s.(served := s.served + 1, tcp := s.tcp + q, server := Serving(nak.to, g, Max(nak.from, 1), |s.tcp|));
    Moves(c, a, s, u, ServerStart);
    t := Answers(c, a, u);
  }

  /** All requests but the last are answered, then it. */
  lemma AnswersAll(c: Config, a: System, s: System, k: nat, n: nat) returns (t: System)
    requires From(c, a, s) && Waiting(s, k + 1) && n == Min(s.m.sent[|s.m.sent| - 1].to, |s.src.pushed|) + 1
    ensures From(c, a, t) && ServerOnly(s, t) && Promised(t, n)
  {
    var u := AnswersBut(c, a, s, k);
    t := AnswersNext(c, a, u, 0, n);
  }

  lemma {:induction false} AnswersBut(c: Config, a: System, s: System, k: nat) returns (t: System)
    requires From(c, a, s) && Waiting(s, k + 1)
    ensures From(c, a, t) && ServerOnly(s, t) && Waiting(t, 1)
    decreases k
  {
    if k == 0 {
      t := s;
    } else {
      var u := AnswersNext(c, a, s, k, Min(s.m.sent[s.served].to, |s.src.pushed|) + 1);
      t := AnswersBut(c, a, u, k - 1);
    }
  }

  // ------------------------------------------------------------------ the mirror

  /** The frame is taken off the connection. */
  lemma TakesOne(c: Config, a: System, s: System, n: nat) returns (t: System)
    requires From(c, a, s) && Promised(s, n) && s.taken < |s.tcp|
    ensures From(c, a, t) && Promised(t, n) && t.tcp == s.tcp && t.taken == s.taken + 1 && t.src == s.src
  {
    IsReady(c, a, s);
    t := Received(c, a, s);
    var q := s.tcp[s.taken..];
    assert q[1..] == t.tcp[t.taken..];
    ReachedMonotone(q[1..], Max(s.m.next, q[0].End()), t.m.next);
  }

  lemma Received(c: Config, a: System, s: System) returns (t: System)
    requires From(c, a, s) && s.taken < |s.tcp|
    ensures From(c, a, t) && t.tcp == s.tcp && t.taken == s.taken + 1 && t.src == s.src
    ensures t.m.next >= Max(s.m.next, s.tcp[s.taken].End())
  {
    var n: nat :| Goes(c, a, s, n);
    GoesSoundly(c, a, s, n);
    NextInLine(c, s);
    var f := s.tcp[s.taken];
    AnswerDecodes(c, s.src, f);
    t := s.(taken := s.taken + 1, skipped := s.skipped + GivenUp(s, f), m := Taken(c, s.m, f, false));
    if f.Data? { DataEffect(c, s.src, s.m, f, false); } else { GapEffect(c, s.src, s.m, f, false); }
    Moves(c, a, s, t, MirrorControl(false));
  }

  /** The mirror takes in everything in flight. */
  lemma {:induction false} TakesAll(c: Config, a: System, s: System, n: nat) returns (t: System)
    requires From(c, a, s) && Promised(s, n)
    ensures From(c, a, t) && t.m.next >= n && t.src == s.src
    decreases |s.tcp| - s.taken
  {
    if s.taken == |s.tcp| {
      t := s;
      assert s.tcp[s.taken..] == [];
    } else {
      var u := TakesOne(c, a, s, n);
      t := TakesAll(c, a, u, n);
    }
  }

  /** A heartbeat makes a mirror whose last request has timed out ask for what it lacks. */
  lemma Asks(c: Config, a: System, s: System) returns (t: System)
    requires From(c, a, s) && Beat(|s.src.pushed|) in s.wire && s.m.next <= |s.src.pushed|
    ensures From(c, a, t) && t == s.(m := t.m) && t.m.next == s.m.next
    ensures s.m.sent < t.m.sent && t.m.sent[|t.m.sent| - 1] == Nak(s.m.next, Min(|s.src.pushed|, s.m.next + NAK_MAX - 1))
  {
    IsReady(c, a, s);
    var d := Beat(|s.src.pushed|);
    DatagramArrives(c, s.src, s.m, d, true);
    t := s.(m := DatagramHandled(c.g, c.session, s.m, DatagramBytes(c, d), true));
    Moves(c, a, s, t, MirrorDatagram(d, true));
  }

  // ------------------------------------------------------------------ the mirror catches up

  /** One round of heartbeat, request, answers and receipts brings the mirror on. */
  lemma ComesOn(c: Config, a: System, s: System) returns (t: System)
    requires From(c, a, s) && s.m.next <= |s.src.pushed|
    ensures From(c, a, t) && t.src == s.src && t.m.next > s.m.next
  {
    var b := Beats(c, a, s);
    var i := Idles(c, a, b);
    var k := Asks(c, a, i);
    IsReady(c, a, i);
    var n := Min(Min(|s.src.pushed|, s.m.next + NAK_MAX - 1), |s.src.pushed|) + 1;
    var w := AnswersAll(c, a, k, |k.m.sent| - k.served - 1, n);
    t := TakesAll(c, a, w, n);
  }

  lemma {:induction false} CatchesUp(c: Config, a: System, s: System) returns (t: System)
    requires From(c, a, s)
    ensures From(c, a, t) && t.src == s.src && t.m.next == |s.src.pushed| + 1
    decreases |s.src.pushed| + 1 - s.m.next
  {
    IsReady(c, a, s);
    if s.m.next == |s.src.pushed| + 1 {
      t := s;
    } else {
      var u := ComesOn(c, a, s);
      IsReady(c, a, u);
      t := CatchesUp(c, a, u);
    }
  }

  /** Every run that has come to a source at rest can go on, by finitely many reads, frames, answers and
      receipts, with one heartbeat datagram a round getting through and requests timing out, to where
      the mirror has every sequence behind it, each of them written or given up after it was lost. */
  lemma MirrorCanCatchUp(c: Config, run: seq<System>)
    requires Run(c, run) && AtRest(Last(run).src)
    ensures exists t, n :: Goes(c, Last(run), t, n) && t.src == Last(run).src && t.m.next == |t.src.pushed| + 1
  {
    var a := Last(run);
    RunKeeps(c, run, |run| - 1);
    RunsConfigured(c, run);
    assert Goes(c, a, a, 0);
    var t := CatchesUp(c, a, a);
    var n: nat :| Goes(c, a, t, n);
  }

  function Last(run: seq<System>): System
    requires run != []
  {
    run[|run| - 1]
  }

  lemma RunsConfigured(c: Config, run: seq<System>)
    requires Run(c, run)
    ensures ConfigOk(c)
  {
  }

  // ------------------------------------------------------------------ without losses

  /** The batch the sender has gathered begins at or below the mirror's position and reaches past it. */
  predicate BatchInLine(s: System) {
    s.sender.records != [] && s.sender.cursor <= s.m.next < s.sender.cursor + |s.sender.records|
  }

  /** The datagram the batch becomes. */
  function BatchOf(s: System): Datagram { Records(s.sender.cursor, s.sender.records) }

  lemma FlushPutsOnWire(c: Config, s: System) returns (t: System)
    requires ConfigOk(c) && Inv(c, s) && BatchInLine(s)
    ensures NextStep(c, s, t, SenderFlush) && t == s.(sender := t.sender, wire := t.wire) && BatchOf(s) in t.wire
    ensures t.sender.records == [] && t.sender.cursor == s.sender.cursor + |s.sender.records|
    ensures DatagramHonest(s.src, BatchOf(s)) && BatchOf(s).seq_ < 0x1_0000_0000_0000_0000
  {
    FlushOk(c, s.src, s.sender);
    t := SenderTook(s, Flush(s.sender));
    var q := Flush(s.sender).1;
    assert q[0] == Data(s.sender.cursor, s.sender.records);
    assert AnswerHonest(s.src, q[0]);
  }

  lemma InLineIsApplied(c: Config, s: Source, m: State, n: nat, rs: seq<Record>, expired: bool)
    requires ConfigOk(c) && SourceOk(c.g, s) && DatagramHonest(s, Records(n, rs)) && n <= m.next < n + |rs|
    requires Positive(m) && HolesCovered(m) && F.PendingHonest(s.pushed, m)
    ensures var r := DatagramHandled(c.g, c.session, m, DatagramBytes(c, Records(n, rs)), expired);
            !r.failed && r.next >= n + |rs| && (m.pending.Keys == {} ==> r.sent == m.sent && r.next == n + |rs|)
  {
    DatagramArrives(c, s, m, Records(n, rs), expired);
    AppliedCovers(c.g, m, n, |rs|, EncodeRecords(rs), expired);
    F.AppliedHonest(c.g, s.pushed, m, n, |rs|, expired);
    F.RecordsWrittenHonest(c.g, s.pushed, m, n, |rs|);
    RecordsWrittenFrame(c.g, m, n, |rs|, EncodeRecords(rs));
  }

  /** In every state of every run a batch in line with the mirror's position can be sent and received as
      one datagram, which carries the mirror past its last record; with nothing parked it asks for
      nothing. */
  lemma BatchCarriesOn(c: Config, run: seq<System>, expired: bool)
    requires Run(c, run) && BatchInLine(Last(run))
    ensures exists t, u :: && NextStep(c, Last(run), t, SenderFlush)
                           && NextStep(c, t, u, MirrorDatagram(BatchOf(Last(run)), expired))
                           && u.m.next >= u.sender.cursor == Last(run).sender.cursor + |Last(run).sender.records|
                           && (Last(run).m.pending.Keys == {} ==> u.m.sent == Last(run).m.sent && u.m.next == u.sender.cursor)
  {
    var s := Last(run);
    RunKeeps(c, run, |run| - 1);
    RunsConfigured(c, run);
    var t := FlushPutsOnWire(c, s);
    InLineIsApplied(c, s.src, s.m, s.sender.cursor, s.sender.records, expired);
    var u := t.(m := DatagramHandled(c.g, c.session, s.m, DatagramBytes(c, BatchOf(s)), expired));
    assert NextStep(c, t, u, MirrorDatagram(BatchOf(s), expired));
  }
}
