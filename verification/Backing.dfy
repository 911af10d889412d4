/** Exclusive creation of a ring's backing file: open, lock, check that the locked inode is still
    the one the path names, replace a stale one, and give it its size. */
module Backing {
  import opened Basics

  /** One path, the length and lock holder of every inode ever made, and the next unused inode. */
  datatype Fs = Fs(path: Option<nat>, len: map<nat, nat>, locks: map<nat, nat>, next: nat)

  ghost predicate FsOk(fs: Fs) {
    && (forall i: nat :: i in fs.len <==> i < fs.next) && (fs.path.Some? ==> fs.path.value < fs.next)
    && (forall i :: i in fs.locks ==> i < fs.next)
  }

  // ------------------------------------------------------------------ file operations

  /** `open` with create and without truncate: what the path names, or a new empty inode. */
  function Opened(fs: Fs): (Fs, nat) {
    if fs.path.Some? then (fs, fs.path.value)
    else (fs.(path := Some(fs.next), len := fs.len[fs.next := 0], next := fs.next + 1), fs.next)
  }

  predicate Lockable(fs: Fs, ino: nat) { ino !in fs.locks }

  function Flocked(fs: Fs, ino: nat, who: nat): Fs { fs.(locks := fs.locks[ino := who]) }

  function Unlinked(fs: Fs): Fs { fs.(path := None) }

  function Resized(fs: Fs, ino: nat, size: nat): Fs { fs.(len := fs.len[ino := size]) }

  /** Closing the descriptor releases the lock it holds. */
  function Closed(fs: Fs, ino: nat, who: nat): Fs {
    if ino in fs.locks && fs.locks[ino] == who then fs.(locks := fs.locks - {ino}) else fs
  }

  // ------------------------------------------------------------------ creators, step by step

  /** `Retrying` still holds the descriptor of an inode it gave up on; `Dropping` has unlinked its
      ring and not yet let go of the lock. */
  datatype Creator =
    | Trying
    | Open(ino: nat)
    | Locked(ino: nat)
    | Measured(ino: nat, size: nat)
    | Matched(ino: nat, size: nat)
    | Retrying(ino: nat)
    | Live(ino: nat)
    | Dropping(ino: nat)
    | Ended

  datatype System = System(fs: Fs, creators: seq<Creator>)

  datatype Act = OpenFile | Flock | StatFile | StatPath | Replace | SetLen(size: nat) | Retry | DropUnlink | Close | Crash

  function Turned(s: System, c: nat, to: Creator, fs: Fs): System
    requires c < |s.creators|
  {
    System(fs, s.creators[c := to])
  }

  predicate HasFile(c: Creator) { !c.Trying? && !c.Ended? }

  function Released(s: System, c: nat): Fs
    requires c < |s.creators|
  {
    if HasFile(s.creators[c]) then Closed(s.fs, s.creators[c].ino, c) else s.fs
  }

  /** One file operation of creator `c`, which may also die at any step. */
  predicate Does(s: System, s': System, c: nat, act: Act) {
    && c < |s.creators|
    && var me := s.creators[c];
    match act
    case OpenFile => me.Trying? && s' == Turned(s, c, Open(Opened(s.fs).1), Opened(s.fs).0)
    case Flock =>
      && me.Open?
      && s' == (if Lockable(s.fs, me.ino) then Turned(s, c, Locked(me.ino), Flocked(s.fs, me.ino, c))
                else Turned(s, c, Ended, s.fs))
    case StatFile => me.Locked? && me.ino in s.fs.len && s' == Turned(s, c, Measured(me.ino, s.fs.len[me.ino]), s.fs)
    case StatPath =>
      && me.Measured?
      && s' == Turned(s, c, if s.fs.path == Some(me.ino) then Matched(me.ino, me.size) else Retrying(me.ino), s.fs)
    case Replace => me.Matched? && me.size != 0 && s' == Turned(s, c, Retrying(me.ino), Unlinked(s.fs))
    case SetLen(size) =>
      me.Matched? && me.size == 0 && size >= 1 && s' == Turned(s, c, Live(me.ino), Resized(s.fs, me.ino, size))
    case Retry => me.Retrying? && s' == Turned(s, c, Trying, Released(s, c))
    case DropUnlink => me.Live? && s' == Turned(s, c, Dropping(me.ino), Unlinked(s.fs))
    case Close => (me.Live? || me.Dropping? || me.Retrying?) && s' == Turned(s, c, Ended, Released(s, c))
    case Crash => s' == Turned(s, c, Ended, Released(s, c))
  }

  // ------------------------------------------------------------------ invariant

  predicate HoldsLock(c: Creator) { HasFile(c) && !c.Open? }

  predicate CreatorOk(fs: Fs, who: nat, c: Creator) {
    && (HasFile(c) ==> c.ino in fs.len)
    && (HoldsLock(c) ==> c.ino in fs.locks && fs.locks[c.ino] == who)
    && (c.Measured? || c.Matched? ==> c.ino in fs.len && c.size == fs.len[c.ino])
    && (c.Matched? || c.Live? ==> fs.path == Some(c.ino))
    && (c.Live? ==> c.ino in fs.len && fs.len[c.ino] >= 1)
  }

  ghost predicate Inv(s: System) {
    && FsOk(s.fs)
    && forall c :: 0 <= c < |s.creators| ==> CreatorOk(s.fs, c, s.creators[c])
  }

  ghost predicate Init(s: System) {
    && FsOk(s.fs) && s.fs.locks == map[]
    && forall c :: 0 <= c < |s.creators| ==> s.creators[c] == Trying
  }

  /** Two creators never hold the lock of the same inode. */
  lemma LocksApart(s: System, a: nat, b: nat)
    requires Inv(s) && a < |s.creators| && b < |s.creators| && a != b
    requires HoldsLock(s.creators[a]) && HoldsLock(s.creators[b])
    ensures s.creators[a].ino != s.creators[b].ino
  {
    assert CreatorOk(s.fs, a, s.creators[a]) && CreatorOk(s.fs, b, s.creators[b]);
  }

  lemma SelfKeeps(s: System, s': System, c: nat, act: Act)
    requires Inv(s) && Does(s, s', c, act)
    ensures FsOk(s'.fs) && CreatorOk(s'.fs, c, s'.creators[c])
  {
    assert CreatorOk(s.fs, c, s.creators[c]);
  }

  /** What one creator does takes nothing from another: it unlinks and resizes only the inode it has
      locked and found at the path. */
  lemma OtherKeeps(s: System, s': System, c: nat, act: Act, d: nat)
    requires Inv(s) && Does(s, s', c, act) && d < |s.creators| && d != c
    ensures |s'.creators| == |s.creators| && s'.creators[d] == s.creators[d] && CreatorOk(s'.fs, d, s.creators[d])
  {
    assert CreatorOk(s.fs, c, s.creators[c]) && CreatorOk(s.fs, d, s.creators[d]);
    if HoldsLock(s.creators[c]) && HoldsLock(s.creators[d]) { LocksApart(s, c, d); }
  }

  lemma StepKeeps(s: System, s': System, c: nat, act: Act)
    requires Inv(s) && Does(s, s', c, act)
    ensures Inv(s')
  {
    SelfKeeps(s, s', c, act);
    forall d | 0 <= d < |s'.creators| ensures CreatorOk(s'.fs, d, s'.creators[d]) {
      if d != c { OtherKeeps(s, s', c, act, d); }
    }
  }

  // ------------------------------------------------------------------ runs

  ghost predicate Steps(s: System, s': System) { exists c, act :: Does(s, s', c, act) }

  ghost predicate StepAt(run: seq<System>, i: nat)
    requires 0 < i < |run|
  {
    Steps(run[i - 1], run[i])
  }

  /** Any interleaving of any number of creators, from a path that may already name some old file. */
  ghost predicate Run(run: seq<System>) {
    run != [] && Init(run[0]) && forall i :: 0 < i < |run| ==> StepAt(run, i)
  }

  lemma {:induction false} RunKeeps(run: seq<System>, i: nat)
    requires Run(run) && i < |run|
    ensures Inv(run[i])
  {
    if i > 0 {
      RunKeeps(run, i - 1);
      assert StepAt(run, i);
      var c, act :| Does(run[i - 1], run[i], c, act);
      StepKeeps(run[i - 1], run[i], c, act);
    }
  }

  /** At most one exclusive producer is live, and the path names the inode it has locked. */
  lemma OneLiveProducer(run: seq<System>, i: nat, a: nat)
    requires Run(run) && i < |run| && a < |run[i].creators| && run[i].creators[a].Live?
    ensures run[i].fs.path == Some(run[i].creators[a].ino)
    ensures run[i].creators[a].ino in run[i].fs.locks && run[i].fs.locks[run[i].creators[a].ino] == a
    ensures forall b :: 0 <= b < |run[i].creators| && run[i].creators[b].Live? ==> b == a
  {
    RunKeeps(run, i);
    assert CreatorOk(run[i].fs, a, run[i].creators[a]);
    forall b | 0 <= b < |run[i].creators| && run[i].creators[b].Live? ensures b == a {
      assert CreatorOk(run[i].fs, b, run[i].creators[b]);
      if b != a { LocksApart(run[i], a, b); }
    }
  }

  /** While a producer stays live its path, lock and file size do not change, whatever others try. */
  lemma LiveRingIsUndisturbed(run: seq<System>, i: nat, a: nat)
    requires Run(run) && 0 < i < |run| && a < |run[i - 1].creators| && run[i - 1].creators[a].Live?
    requires a < |run[i].creators| && run[i].creators[a].Live?
    ensures run[i].creators[a] == run[i - 1].creators[a] && run[i].fs.path == run[i - 1].fs.path
    ensures var ino := run[i].creators[a].ino;
            && ino in run[i - 1].fs.len && ino in run[i].fs.len && run[i].fs.len[ino] == run[i - 1].fs.len[ino]
            && ino in run[i].fs.locks && run[i].fs.locks[ino] == a
  {
    RunKeeps(run, i - 1);
    RunKeeps(run, i);
    assert StepAt(run, i);
    var c, act :| Does(run[i - 1], run[i], c, act);
    assert CreatorOk(run[i - 1].fs, a, run[i - 1].creators[a]) && CreatorOk(run[i].fs, a, run[i].creators[a]);
    LiveUndisturbed(run[i - 1], run[i], c, act, a);
  }

  lemma LiveUndisturbed(s: System, s': System, c: nat, act: Act, a: nat)
    requires Inv(s) && Does(s, s', c, act) && a < |s.creators| && s.creators[a].Live? && s'.creators[a].Live?
    ensures s'.creators[a] == s.creators[a]
    ensures var ino := s.creators[a].ino; ino in s.fs.len && ino in s'.fs.len && s'.fs.len[ino] == s.fs.len[ino]
  {
    assert CreatorOk(s.fs, a, s.creators[a]) && CreatorOk(s.fs, c, s.creators[c]);
    if c != a && HoldsLock(s.creators[c]) { LocksApart(s, c, a); }
  }

  lemma SizedStays(s: System, s': System, c: nat, act: Act, ino: nat)
    requires Inv(s) && Does(s, s', c, act) && ino in s.fs.len && s.fs.len[ino] != 0
    ensures ino in s'.fs.len && s'.fs.len[ino] == s.fs.len[ino]
  {
    assert CreatorOk(s.fs, c, s.creators[c]);
  }

  /** A file that once had a size keeps it for ever, also after its producer is gone and its path has
      been taken over: readers that still map it never see it truncated. */
  lemma {:induction false} OldRingsAreNeverTruncated(run: seq<System>, i: nat, j: nat, ino: nat)
    requires Run(run) && i <= j < |run| && ino in run[i].fs.len && run[i].fs.len[ino] != 0
    ensures ino in run[j].fs.len && run[j].fs.len[ino] == run[i].fs.len[ino]
    decreases j
  {
    if i < j {
      OldRingsAreNeverTruncated(run, i, j - 1, ino);
      RunKeeps(run, j - 1);
      assert StepAt(run, j);
      var c, act :| Does(run[j - 1], run[j], c, act);
      SizedStays(run[j - 1], run[j], c, act, ino);
    }
  }

  // ------------------------------------------------------------------ a creation comes to its end

  /** File operations of one creator, with the system after each. */
  datatype Path = Here | Then(act: Act, system: System, rest: Path)

  predicate Leads(s: System, c: nat, path: Path, s': System)
    decreases path
  {
    match path
    case Here => s == s'
    case Then(act, m, rest) => Does(s, m, c, act) && Leads(m, c, rest, s')
  }

  /** Creator `c` gets there by finitely many file operations of its own. */
  ghost predicate Comes(s: System, c: nat, s': System) { exists path :: Leads(s, c, path, s') }

  lemma Stays(s: System, c: nat)
    ensures Comes(s, c, s)
  {
    assert Leads(s, c, Here, s);
  }

  lemma ComesFirst(s: System, m: System, s': System, c: nat, act: Act)
    requires Does(s, m, c, act) && Comes(m, c, s')
    ensures Comes(s, c, s')
  {
    var path :| Leads(m, c, path, s');
    assert Leads(s, c, Then(act, m, path), s');
  }

  lemma TurnedTwice(s: System, c: nat, a: Creator, b: Creator, fs: Fs, fs': Fs)
    requires c < |s.creators|
    ensures Turned(Turned(s, c, a, fs), c, b, fs') == Turned(s, c, b, fs')
  {
  }

  /** The inode the path names is locked, measured and found at the path. */
  lemma Matches(s: System, c: nat, ino: nat, s': System)
    requires c < |s.creators| && s.creators[c] == Trying && s.fs.path == Some(ino) && ino in s.fs.len && Lockable(s.fs, ino)
    requires Comes(Turned(s, c, Matched(ino, s.fs.len[ino]), Flocked(s.fs, ino, c)), c, s')
    ensures Comes(s, c, s')
  {
    var fs := Flocked(s.fs, ino, c);
    var open, locked := Turned(s, c, Open(ino), s.fs), Turned(s, c, Locked(ino), fs);
    var measured, matched := Turned(s, c, Measured(ino, fs.len[ino]), fs), Turned(s, c, Matched(ino, fs.len[ino]), fs);
    TurnedTwice(s, c, Measured(ino, fs.len[ino]), Matched(ino, fs.len[ino]), fs, fs);
    ComesFirst(measured, matched, s', c, StatPath);
    TurnedTwice(s, c, Locked(ino), Measured(ino, fs.len[ino]), fs, fs);
    ComesFirst(locked, measured, s', c, StatFile);
    TurnedTwice(s, c, Open(ino), Locked(ino), s.fs, fs);
    ComesFirst(open, locked, s', c, Flock);
    ComesFirst(s, open, s', c, OpenFile);
  }

  /** An empty file at the path is locked and given its size. */
  lemma TakesEmpty(s: System, c: nat, ino: nat, size: nat) returns (s': System)
    requires c < |s.creators| && s.creators[c] == Trying && s.fs.path == Some(ino) && ino in s.fs.len && Lockable(s.fs, ino)
    requires s.fs.len[ino] == 0 && size >= 1
    ensures Comes(s, c, s') && s' == Turned(s, c, Live(ino), Resized(Flocked(s.fs, ino, c), ino, size))
  {
    var fs := Flocked(s.fs, ino, c);
    var matched := Turned(s, c, Matched(ino, 0), fs);
    s' := Turned(s, c, Live(ino), Resized(fs, ino, size));
    TurnedTwice(s, c, Matched(ino, 0), Live(ino), fs, Resized(fs, ino, size));
    Stays(s', c);
    ComesFirst(matched, s', s', c, SetLen(size));
    Matches(s, c, ino, s');
  }

  /** Where no file is, a new one is made. */
  lemma MakesNew(s: System, c: nat, size: nat) returns (s': System)
    requires c < |s.creators| && s.creators[c] == Trying && FsOk(s.fs) && s.fs.path.None? && size >= 1
    ensures Comes(s, c, s') && s'.creators == s.creators[c := Live(s.fs.next)] && s'.fs.path == Some(s.fs.next)
    ensures s'.fs.len == s.fs.len[s.fs.next := size] && s'.fs.locks == s.fs.locks[s.fs.next := c]
  {
    var (fs, ino) := Opened(s.fs);
    var fs' := Flocked(fs, ino, c);
    s' := Turned(s, c, Live(ino), Resized(fs', ino, size));
    Stays(s', c);
    var open, locked := Turned(s, c, Open(ino), fs), Turned(s, c, Locked(ino), fs');
    var measured, matched := Turned(s, c, Measured(ino, 0), fs'), Turned(s, c, Matched(ino, 0), fs');
    TurnedTwice(s, c, Matched(ino, 0), Live(ino), fs', Resized(fs', ino, size));
    ComesFirst(matched, s', s', c, SetLen(size));
    TurnedTwice(s, c, Measured(ino, 0), Matched(ino, 0), fs', fs');
    ComesFirst(measured, matched, s', c, StatPath);
    TurnedTwice(s, c, Locked(ino), Measured(ino, 0), fs', fs');
    ComesFirst(locked, measured, s', c, StatFile);
    TurnedTwice(s, c, Open(ino), Locked(ino), fs, fs');
    ComesFirst(open, locked, s', c, Flock);
    ComesFirst(s, open, s', c, OpenFile);
  }

  /** A stale file is unlinked and let go of, and a new one made in its place. */
  lemma ReplacesStale(s: System, c: nat, ino: nat, size: nat) returns (s': System)
    requires c < |s.creators| && s.creators[c] == Trying && FsOk(s.fs) && s.fs.path == Some(ino)
    requires ino in s.fs.len && Lockable(s.fs, ino) && s.fs.len[ino] != 0 && size >= 1
    ensures Comes(s, c, s') && s'.creators == s.creators[c := Live(s.fs.next)] && s'.fs.path == Some(s.fs.next)
    ensures s'.fs.len == s.fs.len[s.fs.next := size] && s'.fs.locks == s.fs.locks[s.fs.next := c]
  {
    var fs := Flocked(s.fs, ino, c);
    var matched := Turned(s, c, Matched(ino, s.fs.len[ino]), fs);
    var retrying := Turned(s, c, Retrying(ino), Unlinked(fs));
    var again := Turned(s, c, Trying, Unlinked(s.fs));
    TurnedTwice(s, c, Matched(ino, s.fs.len[ino]), Retrying(ino), fs, Unlinked(fs));
    TurnedTwice(s, c, Retrying(ino), Trying, Unlinked(fs), Unlinked(s.fs));
    assert fs.locks - {ino} == s.fs.locks;
    assert again.creators == s.creators;
    s' := MakesNew(again, c, size);
    ComesFirst(retrying, again, s', c, Retry);
    ComesFirst(matched, retrying, s', c, Replace);
    Matches(s, c, ino, s');
  }

  /** An undisturbed creator becomes live, with its file locked and sized, unless someone else holds the
      lock of the file at the path; every other file keeps its size, and a stale one is not reused. */
  lemma CreationGoesThrough(run: seq<System>, i: nat, c: nat, size: nat)
    requires Run(run) && i < |run| && c < |run[i].creators| && run[i].creators[c] == Trying && size >= 1
    requires run[i].fs.path.Some? ==> Lockable(run[i].fs, run[i].fs.path.value)
    ensures var fs := run[i].fs;
            exists s', ino :: && Comes(run[i], c, s') && s'.creators == run[i].creators[c := Live(ino)]
                              && s'.fs.path == Some(ino) && s'.fs.len == fs.len[ino := size]
                              && s'.fs.locks == fs.locks[ino := c] && (ino in fs.len ==> fs.len[ino] == 0)
  {
    RunKeeps(run, i);
    var s, s' := run[i], run[i];
    if s.fs.path.None? { s' := MakesNew(s, c, size); }
    else if s.fs.len[s.fs.path.value] == 0 { s' := TakesEmpty(s, c, s.fs.path.value, size); }
    else { s' := ReplacesStale(s, c, s.fs.path.value, size); }
    assert Comes(s, c, s') && s'.creators == s.creators[c := Live(s'.fs.path.value)];
  }

  /** And if someone does, it ends with nothing changed. */
  lemma HeldFileIsLeft(s: System, c: nat)
    requires c < |s.creators| && s.creators[c] == Trying && s.fs.path.Some? && !Lockable(s.fs, s.fs.path.value)
    ensures Comes(s, c, Turned(s, c, Ended, s.fs))
  {
    var open, end := Turned(s, c, Open(s.fs.path.value), s.fs), Turned(s, c, Ended, s.fs);
    TurnedTwice(s, c, Open(s.fs.path.value), Ended, s.fs, s.fs);
    Stays(end, c);
    ComesFirst(open, end, end, c, Flock);
    ComesFirst(s, open, end, c, OpenFile);
  }

  // ------------------------------------------------------------------ the retry loop

  datatype Created = Ok(ino: nat) | ProducerAlreadyExists

  datatype Attempt = Made(ino: nat) | Held | Again

  const TRIES := 8

  /** The file system as one process changes it through `create_backing_file`. */
  class Files {
    var path: Option<nat>
    var len: map<nat, nat>
    var locks: map<nat, nat>
    var next: nat

    function State(): Fs
      reads this
    {
      Fs(path, len, locks, next)
    }

    ghost predicate Valid()
      reads this
    {
      FsOk(State())
    }

    constructor ()
      ensures Valid() && path == None && locks == map[]
    {
      path, len, locks, next := None, map[], map[], 0;
    }

    method Open() returns (ino: nat)
      requires Valid()
      modifies this
      ensures Valid() && (State(), ino) == Opened(old(State())) && ino in len
    {
      if path.None? {
        path, len, next := Some(next), len[next := 0], next + 1;
      }
      ino := path.value;
    }

    method TryLock(ino: nat, who: nat) returns (ok: bool)
      requires Valid() && ino < next
      modifies this`locks
      ensures Valid() && ok == Lockable(old(State()), ino)
      ensures State() == if ok then Flocked(old(State()), ino, who) else old(State())
    {
      ok := ino !in locks;
      if ok { locks := locks[ino := who]; }
    }

    method Close(ino: nat, who: nat)
      requires Valid()
      modifies this`locks
      ensures Valid() && State() == Closed(old(State()), ino, who)
    {
      if ino in locks && locks[ino] == who { locks := locks - {ino}; }
    }

    /** Another process replaces the file at the path by a new empty one. */
    method Overtaken()
      requires Valid()
      modifies this
      ensures Valid() && path == Some(old(next)) && locks == old(locks)
      ensures next == old(next) + 1 && len == old(len)[old(next) := 0]
    {
      path, len, next := Some(next), len[next := 0], next + 1;
    }

    /** One try: the inode is open and locked and still at the path and empty, or the lock is held by
        someone else, or the file was overtaken or stale and everything is let go of again. */
    method Try(size: nat, who: nat, raced: bool) returns (r: Attempt)
      requires Valid() && size >= 1
      modifies this
      ensures Valid() && next >= old(next)
      ensures r.Made? ==> path == Some(r.ino) && locks == old(locks)[r.ino := who] && r.ino !in old(locks)
                          && r.ino in len && len[r.ino] == size && (r.ino in old(len) ==> old(len)[r.ino] == 0)
      ensures forall i :: i in old(len) && r != Made(i) ==> i in len && len[i] == old(len)[i]
      ensures !r.Made? ==> locks == old(locks)
      ensures !raced ==> (r.Held? <==> old(path).Some? && old(path).value in old(locks))
      ensures !raced ==> (r.Again? <==> old(path).Some? && old(path).value !in old(locks) && old(len)[old(path).value] != 0)
      ensures !raced && r.Again? ==> path == None && next == old(next)
      ensures !raced && r.Made? && old(path).None? ==> r.ino == old(next)
    {
      var ino := Open();
      if raced { Overtaken(); }
      var ok := TryLock(ino, who);
      if !ok { return Held; }
      var measured := len[ino];
      if path != Some(ino) {
        Close(ino, who);
        r := Again;
      } else if measured != 0 {
        path := None;
        Close(ino, who);
        r := Again;
      } else {
        len := len[ino := size];
        r := Made(ino);
      }
      assert r.Again? ==> locks == old(locks);
    }

    /** Creates or takes over the file at the path; `raced` says in which tries another process
        replaces the file between the open and the check. On success the path names the inode that
        is locked and sized, which was new or empty; every other file keeps its size, and a failure
        leaves no lock behind. Undisturbed, it fails exactly when another producer holds the lock,
        and a stale file is replaced by a new inode. */
    method CreateBackingFile(size: nat, who: nat, raced: seq<bool>) returns (r: Created)
      requires Valid() && size >= 1 && |raced| == TRIES
      modifies this
      ensures Valid()
      ensures r.Ok? ==> path == Some(r.ino) && locks == old(locks)[r.ino := who] && r.ino !in old(locks)
                        && r.ino in len && len[r.ino] == size && (r.ino in old(len) ==> old(len)[r.ino] == 0)
      ensures forall i :: i in old(len) && r != Ok(i) ==> i in len && len[i] == old(len)[i]
      ensures r.ProducerAlreadyExists? ==> locks == old(locks)
      ensures true !in raced ==> (r.ProducerAlreadyExists? <==> old(path).Some? && old(path).value in old(locks))
      ensures true !in raced && r.Ok? && old(path).Some? && old(path).value in old(len) && old(len)[old(path).value] != 0 ==>
                r.ino == old(next)
    {
      var tries := 0;
      while tries < TRIES
        invariant tries <= TRIES && Valid() && locks == old(locks) && next >= old(next)
        invariant forall i :: i in old(len) ==> i in len && len[i] == old(len)[i]
        invariant true !in raced && tries == 0 ==> State() == old(State())
        invariant true !in raced && tries > 0 ==>
                    && tries == 1 && path == None && next == old(next)
                    && old(path).Some? && old(path).value !in old(locks)
        decreases TRIES - tries
      {
        var attempt := Try(size, who, raced[tries]);
        match attempt
        case Made(ino) => return Ok(ino);
        case Held => return ProducerAlreadyExists;
        case Again => tries := tries + 1;
      }
      r := ProducerAlreadyExists;
    }
  }
}
