/** A TCP-only mirror is never stuck either: with the source at rest, serving and receiving bring it
    level. */
module TcpCatchUp {
  import opened Basics
  import opened SourceRing
  import opened Mirror
  import opened Stream
  import opened ReplicaTcp
  import U = CatchUp

  /** Serving from true reads, and receiving: nothing is pushed. */
  predicate Helps(s: System, step: Step) {
    match step
    case Read(res) =>
      var want := s.gather.cursor + |s.gather.records|;
      U.AtRest(s.src) && want >= 1 && res == U.Outcome(s.src, want)
    case FlushFrame => true
    case Resync => true
    case Arrive => true
    case _ => false
  }

  ghost predicate Move(c: Config, s: System, t: System) { exists step :: Helps(s, step) && NextStep(c, s, t, step) }

  /** `s` follows by `n` moves from `a`. */
  ghost predicate Goes(c: Config, a: System, s: System, n: nat)
    decreases n
  {
    if n == 0 then s == a && ConfigOk(c) && Inv(c, a) && U.AtRest(a.src)
    else exists p :: Goes(c, a, p, n - 1) && Move(c, p, s)
  }

  ghost predicate From(c: Config, a: System, s: System) { exists n: nat :: Goes(c, a, s, n) }

  lemma Moves1(c: Config, a: System, s: System, t: System, step: Step)
    requires From(c, a, s) && Helps(s, step) && NextStep(c, s, t, step)
    ensures From(c, a, t)
  {
    var n: nat :| Goes(c, a, s, n);
    assert Move(c, s, t);
    assert Goes(c, a, t, n + 1);
  }

  /** The invariant holds all along the way, and source, start and first position stay as they were. */
  ghost predicate Sound(c: Config, a: System, s: System, n: nat)
    decreases n
  {
    && Inv(c, s) && ConfigOk(c) && U.AtRest(s.src) && s.src == a.src && s.start == a.start && s.first == a.first
    && (n > 0 ==> exists p :: Sound(c, a, p, n - 1) && Move(c, p, s))
  }

  lemma NextIsSound(c: Config, a: System, s: System, n: nat)
    requires Goes(c, a, s, n + 1) && forall p :: Goes(c, a, p, n) ==> Sound(c, a, p, n)
    ensures Sound(c, a, s, n + 1)
  {
    var p :| Goes(c, a, p, n) && Move(c, p, s);
    var step :| Helps(p, step) && NextStep(c, p, s, step);
    StepKeeps(c, p, s, step);
  }

  lemma {:induction false} GoesSoundly(c: Config, a: System, s: System, n: nat)
    requires Goes(c, a, s, n)
    ensures Sound(c, a, s, n)
    decreases n
  {
    if n > 0 {
      var m := n - 1;
      forall p | Goes(c, a, p, m) ensures Sound(c, a, p, m) { GoesSoundly(c, a, p, m); }
      NextIsSound(c, a, s, m);
    }
  }

  /** What the moves below rely on. */
  predicate Ready(c: Config, s: System) {
    && ConfigOk(c) && U.AtRest(s.src) && SourceOk(c.g, s.src) && !s.m.failed && s.m.next >= 1
    && GatherOk(c, s.src, s.gather) && Lockstep(s)
  }

  lemma IsReady(c: Config, a: System, s: System)
    requires From(c, a, s)
    ensures Ready(c, s) && s.src == a.src && s.start == a.start && s.first == a.first
  {
    var n: nat :| Goes(c, a, s, n);
    GoesSoundly(c, a, s, n);
  }

  // ------------------------------------------------------------------ the server's cursor

  function Took(s: System, r: (Gather, seq<Answer>)): System { s.(gather := r.0, tcp := s.tcp + r.1) }

  lemma Clears(c: Config, a: System, s: System) returns (t: System)
    requires From(c, a, s)
    ensures From(c, a, t) && U.Clear(t.gather) && t.gather.cursor >= s.gather.cursor
    ensures s.gather.resync.Some? ==> t.gather.cursor >= Resynced(s.src, s.gather).0.cursor
    ensures s.gather.records != [] ==> t.gather.cursor > s.gather.cursor
  {
    IsReady(c, a, s);
    if s.gather.resync.Some? {
      t := Took(s, Resynced(s.src, s.gather));
      Moves1(c, a, s, t, Resync);
    } else if s.gather.records != [] {
      t := Took(s, Flush(s.gather));
      Moves1(c, a, s, t, FlushFrame);
    } else {
      t := s;
    }
  }

  lemma Advances(c: Config, a: System, s: System) returns (t: System)
    requires From(c, a, s) && U.Clear(s.gather) && s.gather.cursor <= |s.src.pushed|
    ensures From(c, a, t) && U.Clear(t.gather) && t.gather.cursor > s.gather.cursor
  {
    IsReady(c, a, s);
    var res := U.Outcome(s.src, s.gather.cursor);
    U.OutcomeIsHonest(s.src, s.gather.cursor);
    U.OneRead(s.src, s.gather);
    var u := Took(s, Gathered(s.src, s.gather, res));
    Moves1(c, a, s, u, Read(res));
    t := Clears(c, a, u);
  }

  lemma {:induction false} Arrives1(c: Config, a: System, s: System) returns (t: System)
    requires From(c, a, s) && U.Clear(s.gather)
    ensures From(c, a, t) && U.Clear(t.gather) && t.gather.cursor == |a.src.pushed| + 1
    decreases |a.src.pushed| + 1 - s.gather.cursor
  {
    IsReady(c, a, s);
    if s.gather.cursor == |a.src.pushed| + 1 {
      t := s;
    } else {
      var u := Advances(c, a, s);
      IsReady(c, a, u);
      t := Arrives1(c, a, u);
    }
  }

  // ------------------------------------------------------------------ the mirror

  lemma Receives(c: Config, a: System, s: System) returns (t: System)
    requires From(c, a, s) && s.taken < |s.tcp|
    ensures From(c, a, t) && t.tcp == s.tcp && t.gather == s.gather && t.taken == s.taken + 1
  {
    var n: nat :| Goes(c, a, s, n);
    GoesSoundly(c, a, s, n);
    NextInLine(c, s);
    var f := s.tcp[s.taken];
    t := s.(taken := s.taken + 1, m := Taken(c, s.m, f), skipped := s.skipped + JumpedOver(s, f));
    Moves1(c, a, s, t, Arrive);
  }

  lemma {:induction false} ReceivesAll(c: Config, a: System, s: System) returns (t: System)
    requires From(c, a, s)
    ensures From(c, a, t) && t.taken == |t.tcp| && t.gather == s.gather && t.tcp == s.tcp
    decreases |s.tcp| - s.taken
  {
    IsReady(c, a, s);
    if s.taken == |s.tcp| {
      t := s;
    } else {
      var u := Receives(c, a, s);
      t := ReceivesAll(c, a, u);
    }
  }

  // ------------------------------------------------------------------ runs

  function Last(run: seq<System>): System
    requires run != []
  {
    run[|run| - 1]
  }

  /** A mirror only jumps ahead to something the source has. */
  predicate StartIsThere(s: System) { s.first < s.start ==> s.start <= |s.src.pushed| }

  lemma {:induction false} StartStaysThere(c: Config, run: seq<System>, wanted: nat, resumed: bool, i: nat)
    requires Run(c, run, wanted, resumed) && i < |run|
    ensures ConfigOk(c) && StartIsThere(run[i])
  {
    if i > 0 {
      StartStaysThere(c, run, wanted, resumed, i - 1);
      assert StepAt(c, run, i);
    }
  }

  /** Everything has been served and received. */
  lemma Level(c: Config, s: System)
    requires Ready(c, s) && s.taken == |s.tcp| && s.gather.cursor == |s.src.pushed| + 1 && StartIsThere(s)
    ensures s.m.next == |s.src.pushed| + 1
  {
    assert s.tcp[s.taken..] == [];
  }

  lemma BecomesLevel(c: Config, a: System) returns (t: System)
    requires From(c, a, a) && StartIsThere(a)
    ensures From(c, a, t) && t.src == a.src && t.m.next == |t.src.pushed| + 1
  {
    var s := Clears(c, a, a);
    s := Arrives1(c, a, s);
    t := ReceivesAll(c, a, s);
    IsReady(c, a, t);
    Level(c, t);
  }

  /** Every run that has come to a source at rest can go on, by finitely many reads, frames and
      receipts, to where the mirror has every sequence behind it. */
  lemma TcpMirrorCanCatchUp(c: Config, run: seq<System>, wanted: nat, resumed: bool)
    requires Run(c, run, wanted, resumed) && U.AtRest(Last(run).src)
    ensures exists t, n :: Goes(c, Last(run), t, n) && t.src == Last(run).src && t.m.next == |t.src.pushed| + 1
  {
    RunKeeps(c, run, wanted, resumed, |run| - 1);
    StartStaysThere(c, run, wanted, resumed, |run| - 1);
    assert Goes(c, Last(run), Last(run), 0);
    var t := BecomesLevel(c, Last(run));
    var n: nat :| Goes(c, Last(run), t, n);
  }
}
