/** Sleeping and waking over producers with store buffers. A producer announces a sequence with a
    store that may stay in its buffer, and then loads the number of waiting consumers; a consumer
    about to sleep registers and issues a barrier that drains the producers' buffers. */
module Futex {
  import opened Basics

  const WORDS := 0x1_0000_0000

  datatype Stage = Idle | Checking | Bumping | Waking

  /** `buffer` holds the announcements not yet in memory, oldest first. */
  datatype Producer = Producer(buffer: seq<nat>, stage: Stage)

  /** `at` counts the wake-ups that had changed the futex word when the consumer loaded it, `slept`
      those at the moment it fell asleep. */
  datatype Waiter =
    | Off
    | Checked(target: nat)
    | Loaded(target: nat, at: nat)
    | Registered(target: nat, at: nat)
    | Fenced(target: nat, at: nat)
    | Rechecked(target: nat, at: nat)
    | Asleep(target: nat, at: nat, slept: nat)
    | Leaving

  /** `memory` is the announced sequence others can see; the futex word is the number of `bumps`
      modulo 2^32. */
  datatype State = State(memory: nat, bumps: nat, waiting: nat, producers: seq<Producer>, waiters: seq<Waiter>)

  function FutexWord(bumps: nat): nat { bumps % WORDS }

  /** The newest of some announcements. */
  function Newest(ns: seq<nat>): (n: nat)
    ensures forall k :: 0 <= k < |ns| ==> ns[k] <= n
    ensures n == 0 || n in ns
  {
    if ns == [] then 0 else Max(ns[0], Newest(ns[1..]))
  }

  /** The newest announcement in any store buffer. */
  function Buffered(ps: seq<Producer>): nat {
    if ps == [] then 0 else Max(Newest(ps[0].buffer), Buffered(ps[1..]))
  }

  /** The newest sequence announced, whether or not it has left its store buffer. */
  function Announced(s: State): nat { Max(s.memory, Buffered(s.producers)) }

  // ------------------------------------------------------------------ steps

  datatype Step = Produce(p: nat, act: ProduceStep) | Wait(w: nat, step: WaitStep)

  datatype ProduceStep = Push(n: nat) | Drain | Check | Bump | Wake

  datatype WaitStep = Begin(target: nat) | LoadWord | Register | Barrier | Recheck | Sleep | Timeout | Leave

  predicate NextStep(s: State, s': State, step: Step, registered: bool) {
    match step
    case Produce(p, act) => p < |s.producers| && Produces(s, s', p, act)
    case Wait(w, act) => w < |s.waiters| && Waits(s, s', w, act, registered)
  }

  function Put(s: State, p: nat, to: Producer): State
    requires p < |s.producers|
  {
    s.(producers := s.producers[p := to])
  }

  /** One step of a producer. The announced sequence only grows: a single producer stores larger ones,
      several use a maximum. A locked instruction takes effect only when the producer's own buffer
      has drained. */
  predicate Produces(s: State, s': State, p: nat, act: ProduceStep)
    requires p < |s.producers|
  {
    var me := s.producers[p];
    match act
    case Push(n) => me.stage.Idle? && s' == Put(s, p, Producer(me.buffer + [n], Checking))
    case Drain =>
      me.buffer != [] && s' == Put(s, p, me.(buffer := me.buffer[1..])).(memory := Max(s.memory, me.buffer[0]))
    case Check => me.stage.Checking? && s' == Put(s, p, me.(stage := if s.waiting > 0 then Bumping else Idle))
    case Bump => me.stage.Bumping? && me.buffer == [] && s' == Put(s, p, me.(stage := Waking)).(bumps := s.bumps + 1)
    case Wake => me.stage.Waking? && s' == Put(s, p, me.(stage := Idle)).(waiters := Woken(s.waiters))
  }

  function Woken(ws: seq<Waiter>): (r: seq<Waiter>)
    ensures |r| == |ws| && forall w :: 0 <= w < |ws| ==> r[w] == if ws[w].Asleep? then Leaving else ws[w]
  {
    seq(|ws|, w requires 0 <= w < |ws| => if ws[w].Asleep? then Leaving else ws[w])
  }

  function Turned(s: State, w: nat, to: Waiter): State
    requires w < |s.waiters|
  {
    s.(waiters := s.waiters[w := to])
  }

  /** Every store buffer emptied into memory. */
  function Drained(s: State): (d: State)
    ensures |d.producers| == |s.producers|
    ensures forall p :: 0 <= p < |s.producers| ==> d.producers[p] == Producer([], s.producers[p].stage)
  {
    s.(memory := Announced(s),
       producers := seq(|s.producers|, p requires 0 <= p < |s.producers| => Producer([], s.producers[p].stage)))
  }

  /** One step of `FutexWait::wait`. The barrier drains the buffers of producers that registered for
      it; the kernel puts the caller to sleep only if the word is still the one it loaded; a sleep
      may time out. */
  predicate Waits(s: State, s': State, w: nat, act: WaitStep, registered: bool)
    requires w < |s.waiters|
  {
    var me := s.waiters[w];
    match act
    case Begin(target) => me.Off? && s.memory < target && s' == Turned(s, w, Checked(target))
    case LoadWord => me.Checked? && s' == Turned(s, w, Loaded(me.target, s.bumps))
    case Register => me.Loaded? && s' == Turned(s, w, Registered(me.target, me.at)).(waiting := s.waiting + 1)
    case Barrier => me.Registered? && s' == Turned(if registered then Drained(s) else s, w, Fenced(me.target, me.at))
    case Recheck =>
      me.Fenced? && s' == Turned(s, w, if s.memory >= me.target then Leaving else Rechecked(me.target, me.at))
    case Sleep =>
      me.Rechecked? && s' == Turned(s, w, if FutexWord(s.bumps) == FutexWord(me.at) then Asleep(me.target, me.at, s.bumps)
                                          else Leaving)
    case Timeout => me.Asleep? && s' == Turned(s, w, Leaving)
    case Leave => me.Leaving? && s.waiting > 0 && s' == Turned(s, w, Off).(waiting := s.waiting - 1)
  }

  predicate Init(s: State) {
    && s.memory == 0 && s.bumps == 0 && s.waiting == 0
    && (forall p :: 0 <= p < |s.producers| ==> s.producers[p] == Producer([], Idle))
    && (forall w :: 0 <= w < |s.waiters| ==> s.waiters[w] == Off)
  }

  // ------------------------------------------------------------------ invariant

  predicate Counted(w: Waiter) { w.Registered? || w.Fenced? || w.Rechecked? || w.Asleep? || w.Leaving? }

  function Waiting(ws: seq<Waiter>): nat { if ws == [] then 0 else (if Counted(ws[0]) then 1 else 0) + Waiting(ws[1..]) }

  lemma {:induction false} WaitingUpdate(ws: seq<Waiter>, w: nat, to: Waiter)
    requires w < |ws|
    ensures Waiting(ws[w := to]) == Waiting(ws) - (if Counted(ws[w]) then 1 else 0) + (if Counted(to) then 1 else 0)
    ensures Counted(ws[w]) ==> Waiting(ws) > 0
  {
    if w == 0 {
      assert ws[w := to][1..] == ws[1..];
    } else {
      WaitingUpdate(ws[1..], w - 1, to);
      assert ws[w := to][1..] == ws[1..][w - 1 := to];
    }
  }

  lemma {:induction false} WokenWaiting(ws: seq<Waiter>)
    ensures Waiting(Woken(ws)) == Waiting(ws)
  {
    if ws != [] {
      WokenWaiting(ws[1..]);
      assert Woken(ws)[1..] == Woken(ws[1..]);
    }
  }

  ghost predicate SomeoneAt(s: State, stage: Stage) { exists p :: 0 <= p < |s.producers| && s.producers[p].stage == stage }

  /** Some producer has yet to change the futex word for what it announced, or the word has changed
      since it was loaded. */
  ghost predicate Alerted(s: State, at: nat) { SomeoneAt(s, Checking) || SomeoneAt(s, Bumping) || s.bumps > at }

  ghost predicate WaiterOk(s: State, w: Waiter) {
    match w
    case Loaded(_, at) => at <= s.bumps
    case Registered(_, at) => at <= s.bumps
    case Fenced(target, at) => at <= s.bumps && (Announced(s) >= target && s.memory < target ==> Alerted(s, at))
    case Rechecked(target, at) => at <= s.bumps && (Announced(s) >= target ==> Alerted(s, at))
    case Asleep(target, at, slept) =>
      && at <= slept <= s.bumps && FutexWord(at) == FutexWord(slept)
      && (Announced(s) >= target ==> Alerted(s, at)) && (s.bumps > slept ==> SomeoneAt(s, Waking))
    case _ => true
  }

  ghost predicate Inv(s: State) {
    && s.waiting == Waiting(s.waiters)
    && forall w :: 0 <= w < |s.waiters| ==> WaiterOk(s, s.waiters[w])
  }

  lemma {:induction false} NobodyWaiting(ws: seq<Waiter>)
    requires forall w :: 0 <= w < |ws| ==> ws[w] == Off
    ensures Waiting(ws) == 0
  {
    if ws != [] { NobodyWaiting(ws[1..]); }
  }

  lemma InitHolds(s: State)
    requires Init(s)
    ensures Inv(s)
  {
    NobodyWaiting(s.waiters);
  }

  // ------------------------------------------------------------------ what has been announced

  lemma {:induction false} BufferedUpdate(ps: seq<Producer>, p: nat, to: Producer)
    requires p < |ps|
    ensures Newest(ps[p].buffer) <= Buffered(ps)
    ensures Newest(to.buffer) <= Buffered(ps[p := to]) <= Max(Buffered(ps), Newest(to.buffer))
    ensures Buffered(ps) <= Max(Buffered(ps[p := to]), Newest(ps[p].buffer))
  {
    var qs := ps[p := to];
    if p == 0 {
      assert qs[1..] == ps[1..];
    } else {
      assert qs[1..] == ps[1..][p - 1 := to];
      BufferedUpdate(ps[1..], p - 1, to);
    }
  }

  /** Draining moves an announcement without making or losing one. */
  lemma DrainKeepsAnnounced(s: State, s': State, p: nat)
    requires p < |s.producers| && Produces(s, s', p, Drain)
    ensures Announced(s') == Announced(s) && s'.memory >= s.memory
  {
    var me := s.producers[p];
    assert Newest(me.buffer) == Max(me.buffer[0], Newest(me.buffer[1..]));
    BufferedUpdate(s.producers, p, me.(buffer := me.buffer[1..]));
  }

  /** A step that leaves the buffer alone announces nothing. */
  lemma StageKeepsAnnounced(s: State, p: nat, to: Producer)
    requires p < |s.producers| && to.buffer == s.producers[p].buffer
    ensures Announced(Put(s, p, to)) == Announced(s)
  {
    BufferedUpdate(s.producers, p, to);
  }

  lemma {:induction false} EmptyBuffers(ps: seq<Producer>)
    requires forall p :: 0 <= p < |ps| ==> ps[p].buffer == []
    ensures Buffered(ps) == 0
  {
    if ps != [] { EmptyBuffers(ps[1..]); }
  }

  lemma DrainedAnnounces(s: State)
    ensures Announced(Drained(s)) == Announced(s) == Drained(s).memory
  {
    EmptyBuffers(Drained(s).producers);
  }

  // ------------------------------------------------------------------ every step keeps it

  lemma StageMoves(s: State, s': State, p: nat, stage: Stage)
    requires p < |s.producers| && |s'.producers| == |s.producers| && s'.producers == s.producers[p := s'.producers[p]]
    requires SomeoneAt(s, stage) && (s.producers[p].stage == stage ==> s'.producers[p].stage == stage)
    ensures SomeoneAt(s', stage)
  {
    var x :| 0 <= x < |s.producers| && s.producers[x].stage == stage;
    assert s'.producers[x].stage == stage;
  }

  /** A producer's step takes no alert back: its check leads on to the wake-up while anyone waits. */
  lemma AlertStays(s: State, s': State, p: nat, act: ProduceStep, at: nat)
    requires p < |s.producers| && Produces(s, s', p, act) && s.waiting > 0 && at <= s.bumps && Alerted(s, at)
    ensures Alerted(s', at)
  {
    match act
    case Check => assert s'.producers[p].stage == Bumping;
    case Bump =>
    case _ =>
      if SomeoneAt(s, Checking) { StageMoves(s, s', p, Checking); }
      else if SomeoneAt(s, Bumping) { StageMoves(s, s', p, Bumping); }
  }

  lemma AnnouncedMoves(s: State, s': State, p: nat, act: ProduceStep)
    requires p < |s.producers| && Produces(s, s', p, act)
    ensures s'.memory >= s.memory && (!act.Push? ==> Announced(s') == Announced(s))
    ensures act.Push? ==> SomeoneAt(s', Checking)
  {
    match act
    case Push(_) => assert s'.producers[p].stage == Checking;
    case Drain => DrainKeepsAnnounced(s, s', p);
    case _ => StageKeepsAnnounced(s, p, s'.producers[p]);
  }

  lemma ProducerKeepsAlerts(s: State, s': State, p: nat, act: ProduceStep, target: nat, at: nat)
    requires p < |s.producers| && Produces(s, s', p, act) && s.waiting > 0 && at <= s.bumps
    requires Announced(s) >= target ==> Alerted(s, at)
    ensures Announced(s') >= target ==> Alerted(s', at)
  {
    AnnouncedMoves(s, s', p, act);
    if Announced(s) >= target { AlertStays(s, s', p, act, at); }
  }

  lemma ProducerKeepsFenced(s: State, s': State, p: nat, act: ProduceStep, target: nat, at: nat)
    requires p < |s.producers| && Produces(s, s', p, act) && s.waiting > 0 && at <= s.bumps
    requires Announced(s) >= target && s.memory < target ==> Alerted(s, at)
    ensures Announced(s') >= target && s'.memory < target ==> Alerted(s', at)
  {
    AnnouncedMoves(s, s', p, act);
    if Announced(s) >= target && s.memory < target { AlertStays(s, s', p, act, at); }
  }

  lemma SleeperIsWoken(s: State, s': State, p: nat, act: ProduceStep, slept: nat)
    requires p < |s.producers| && Produces(s, s', p, act) && !act.Wake? && slept <= s.bumps
    requires s.bumps > slept ==> SomeoneAt(s, Waking)
    ensures s'.bumps > slept ==> SomeoneAt(s', Waking)
  {
    if act.Bump? { assert s'.producers[p].stage == Waking; }
    else if s.bumps > slept { StageMoves(s, s', p, Waking); }
  }

  lemma ProducerKeepsWaiter(s: State, s': State, p: nat, act: ProduceStep, w: nat)
    requires Inv(s) && p < |s.producers| && Produces(s, s', p, act) && w < |s.waiters|
    ensures |s'.waiters| == |s.waiters| && WaiterOk(s', s'.waiters[w])
  {
    assert WaiterOk(s, s.waiters[w]);
    if Counted(s.waiters[w]) { WaitingUpdate(s.waiters, w, s.waiters[w]); }
    match s.waiters[w]
    case Fenced(target, at) => ProducerKeepsFenced(s, s', p, act, target, at);
    case Rechecked(target, at) => ProducerKeepsAlerts(s, s', p, act, target, at);
    case Asleep(target, at, slept) =>
      if !act.Wake? {
        ProducerKeepsAlerts(s, s', p, act, target, at);
        SleeperIsWoken(s, s', p, act, slept);
      }
    case _ =>
  }

  lemma ProducerKeeps(s: State, s': State, p: nat, act: ProduceStep)
    requires Inv(s) && p < |s.producers| && Produces(s, s', p, act)
    ensures Inv(s')
  {
    if act.Wake? { WokenWaiting(s.waiters); }
    forall w | 0 <= w < |s'.waiters| ensures WaiterOk(s', s'.waiters[w]) { ProducerKeepsWaiter(s, s', p, act, w); }
  }

  /** A barrier hides nothing from those already waiting. */
  lemma BarrierKeepsWaiter(s: State, x: Waiter)
    requires WaiterOk(s, x)
    ensures WaiterOk(Drained(s), x)
  {
    DrainedAnnounces(s);
    var d := Drained(s);
    forall stage: Stage | SomeoneAt(s, stage) ensures SomeoneAt(d, stage) {
      var p :| 0 <= p < |s.producers| && s.producers[p].stage == stage;
      assert d.producers[p].stage == stage;
    }
  }

  lemma WaitKeepsWaiter(s: State, s': State, w: nat, act: WaitStep, x: nat)
    requires Inv(s) && w < |s.waiters| && Waits(s, s', w, act, true) && x < |s.waiters|
    ensures |s'.waiters| == |s.waiters| && WaiterOk(s', s'.waiters[x])
  {
    assert WaiterOk(s, s.waiters[x]) && WaiterOk(s, s.waiters[w]);
    if act.Barrier? {
      DrainedAnnounces(s);
      BarrierKeepsWaiter(s, s.waiters[x]);
      SameProducers(Drained(s), s', s'.waiters[x]);
    } else {
      SameProducers(s, s', s.waiters[x]);
    }
  }

  /** What a waiter knows depends on memory, word and producers only. */
  lemma SameProducers(s: State, s': State, x: Waiter)
    requires s'.producers == s.producers && s'.memory == s.memory && s'.bumps == s.bumps
    ensures WaiterOk(s, x) <==> WaiterOk(s', x)
  {
    assert forall stage :: SomeoneAt(s, stage) <==> SomeoneAt(s', stage);
  }

  lemma WaitKeeps(s: State, s': State, w: nat, act: WaitStep)
    requires Inv(s) && w < |s.waiters| && Waits(s, s', w, act, true)
    ensures Inv(s')
  {
    WaitingUpdate(s.waiters, w, s'.waiters[w]);
    forall x | 0 <= x < |s'.waiters| ensures WaiterOk(s', s'.waiters[x]) { WaitKeepsWaiter(s, s', w, act, x); }
  }

  lemma StepKeeps(s: State, s': State, step: Step)
    requires Inv(s) && NextStep(s, s', step, true)
    ensures Inv(s')
  {
    match step
    case Produce(p, act) => ProducerKeeps(s, s', p, act);
    case Wait(w, act) => WaitKeeps(s, s', w, act);
  }

  // ------------------------------------------------------------------ runs

  ghost predicate Steps(s: State, s': State, registered: bool) { exists step :: NextStep(s, s', step, registered) }

  ghost predicate StepAt(run: seq<State>, i: nat, registered: bool)
    requires 0 < i < |run|
  {
    Steps(run[i - 1], run[i], registered)
  }

  /** Any interleaving of any number of producers and consumers. */
  ghost predicate Run(run: seq<State>, registered: bool) {
    run != [] && Init(run[0]) && forall i :: 0 < i < |run| ==> StepAt(run, i, registered)
  }

  lemma {:induction false} RunKeeps(run: seq<State>, i: nat)
    requires Run(run, true) && i < |run|
    ensures Inv(run[i])
  {
    if i == 0 {
      InitHolds(run[0]);
    } else {
      RunKeeps(run, i - 1);
      assert StepAt(run, i, true);
      var step :| NextStep(run[i - 1], run[i], step, true);
      StepKeeps(run[i - 1], run[i], step);
    }
  }

  /** Every producer is past its wake. */
  predicate AllIdle(s: State) { forall p :: 0 <= p < |s.producers| ==> s.producers[p].stage == Idle }

  /** Asleep although what it waits for was announced and no producer will wake it. */
  predicate LostWakeup(s: State, w: nat) {
    w < |s.waiters| && s.waiters[w].Asleep? && Announced(s) >= s.waiters[w].target && AllIdle(s)
  }

  /** With registered producers, however many, a wake-up is lost only by a consumer that let 2^32
      wake-ups go by between loading the futex word and sleeping on it. */
  lemma NoLostWakeup(run: seq<State>, i: nat, w: nat)
    requires Run(run, true) && i < |run| && LostWakeup(run[i], w)
    ensures run[i].waiters[w].slept >= run[i].waiters[w].at + WORDS
  {
    RunKeeps(run, i);
    assert WaiterOk(run[i], run[i].waiters[w]);
  }

  /** Exactly so: when its target has been announced and all producers are past their wakes, a
      consumer about to sleep does so if and only if the wake-ups since it loaded the word are a
      multiple of 2^32; it has missed at least one. */
  lemma SleepsThroughIffWrapped(run: seq<State>, i: nat, w: nat, s': State)
    requires Run(run, true) && i < |run| && w < |run[i].waiters| && run[i].waiters[w].Rechecked?
    requires Announced(run[i]) >= run[i].waiters[w].target && AllIdle(run[i])
    requires NextStep(run[i], s', Wait(w, Sleep), true)
    ensures run[i].bumps > run[i].waiters[w].at
    ensures LostWakeup(s', w) <==> (run[i].bumps - run[i].waiters[w].at) % WORDS == 0
  {
    RunKeeps(run, i);
    assert WaiterOk(run[i], run[i].waiters[w]);
  }

  // ------------------------------------------------------------------ and the wake-up comes

  /** Steps of one producer, with the state after each. */
  datatype Path = Here | Then(act: ProduceStep, state: State, rest: Path)

  predicate Leads(s: State, p: nat, path: Path, s': State)
    decreases path
  {
    match path
    case Here => s == s'
    case Then(act, m, rest) => p < |s.producers| && Produces(s, m, p, act) && Leads(m, p, rest, s')
  }

  /** Producer `p` gets there by finitely many steps of its own. */
  ghost predicate Comes(s: State, p: nat, s': State) { exists path :: Leads(s, p, path, s') }

  lemma ComesFirst(s: State, m: State, s': State, p: nat, act: ProduceStep)
    requires p < |s.producers| && Produces(s, m, p, act) && Comes(m, p, s')
    ensures Comes(s, p, s')
  {
    var path :| Leads(m, p, path, s');
    assert Leads(s, p, Then(act, m, path), s');
  }

  /** The wake itself. */
  lemma FromWaking(s: State, p: nat, w: nat) returns (s': State)
    requires p < |s.producers| && s.producers[p].stage == Waking && w < |s.waiters| && s.waiters[w].Asleep?
    ensures Comes(s, p, s') && |s'.waiters| == |s.waiters| && s'.waiters[w] == Leaving
  {
    s' := Put(s, p, s.producers[p].(stage := Idle)).(waiters := Woken(s.waiters));
    assert Leads(s', p, Here, s');
    ComesFirst(s, s', s', p, Wake);
  }

  /** The store buffer drains, the word changes, then the wake. */
  lemma {:induction false} FromBumping(s: State, p: nat, w: nat) returns (s': State)
    requires p < |s.producers| && s.producers[p].stage == Bumping && w < |s.waiters| && s.waiters[w].Asleep?
    ensures Comes(s, p, s') && |s'.waiters| == |s.waiters| && s'.waiters[w] == Leaving
    decreases |s.producers[p].buffer|
  {
    var me := s.producers[p];
    if me.buffer == [] {
      var m := Put(s, p, me.(stage := Waking)).(bumps := s.bumps + 1);
      s' := FromWaking(m, p, w);
      ComesFirst(s, m, s', p, Bump);
    } else {
      var m := Put(s, p, me.(buffer := me.buffer[1..])).(memory := Max(s.memory, me.buffer[0]));
      s' := FromBumping(m, p, w);
      ComesFirst(s, m, s', p, Drain);
    }
  }

  lemma FromChecking(s: State, p: nat, w: nat) returns (s': State)
    requires p < |s.producers| && s.producers[p].stage == Checking && w < |s.waiters| && s.waiters[w].Asleep?
    requires s.waiting > 0
    ensures Comes(s, p, s') && |s'.waiters| == |s.waiters| && s'.waiters[w] == Leaving
  {
    var m := Put(s, p, s.producers[p].(stage := Bumping));
    s' := FromBumping(m, p, w);
    ComesFirst(s, m, s', p, Check);
  }

  /** A consumer asleep although its message has been announced is woken by finitely many steps of one
      producer, unless the futex word wrapped before it fell asleep. */
  lemma WakeupComes(run: seq<State>, i: nat, w: nat)
    requires Run(run, true) && i < |run| && w < |run[i].waiters| && run[i].waiters[w].Asleep?
    requires Announced(run[i]) >= run[i].waiters[w].target && run[i].waiters[w].slept < run[i].waiters[w].at + WORDS
    ensures exists p, s' :: Comes(run[i], p, s') && |s'.waiters| == |run[i].waiters| && s'.waiters[w] == Leaving
  {
    var s := run[i];
    RunKeeps(run, i);
    assert WaiterOk(s, s.waiters[w]);
    WaitingUpdate(s.waiters, w, Off);
    var p: nat, s': State;
    if s.bumps > s.waiters[w].slept {
      p :| p < |s.producers| && s.producers[p].stage == Waking;
      s' := FromWaking(s, p, w);
    } else if SomeoneAt(s, Bumping) {
      p :| p < |s.producers| && s.producers[p].stage == Bumping;
      s' := FromBumping(s, p, w);
    } else {
      p :| p < |s.producers| && s.producers[p].stage == Checking;
      s' := FromChecking(s, p, w);
    }
  }

  /** While nobody waits, pushing changes no futex word and wakes nobody. */
  lemma {:induction false} NobodyIsWokenInVain(run: seq<State>, registered: bool, i: nat)
    requires Run(run, registered) && i < |run| && forall j :: 0 <= j <= i ==> run[j].waiting == 0
    ensures run[i].bumps == 0
    ensures forall p :: 0 <= p < |run[i].producers| ==> run[i].producers[p].stage in {Idle, Checking}
  {
    if i > 0 {
      NobodyIsWokenInVain(run, registered, i - 1);
      assert StepAt(run, i, registered);
    }
  }

  // ------------------------------------------------------------------ both exceptions do occur

  ghost predicate Reachable(s: State, registered: bool) {
    exists run :: Run(run, registered) && run[|run| - 1] == s
  }

  lemma Extend(s: State, s': State, step: Step, registered: bool)
    requires Reachable(s, registered) && NextStep(s, s', step, registered)
    ensures Reachable(s', registered)
  {
    var run :| Run(run, registered) && run[|run| - 1] == s;
    var longer := run + [s'];
    forall i | 0 < i < |longer| ensures StepAt(longer, i, registered) {
      if i < |run| { assert StepAt(run, i, registered); }
    }
    assert Run(longer, registered);
  }

  /** One producer and one consumer. */
  function Two(memory: nat, buffer: seq<nat>, bumps: nat, waiting: nat, stage: Stage, w: Waiter): State {
    State(memory, bumps, waiting, [Producer(buffer, stage)], [w])
  }

  /** A step of the one producer. */
  lemma Goes(s: State, to: Producer, s': State, act: ProduceStep, registered: bool)
    requires Reachable(s, registered) && |s.producers| == 1 && s'.producers == [to]
    requires s.producers[0 := to] == [to] ==> Produces(s, s', 0, act)
    ensures Reachable(s', registered)
  {
    assert s.producers[0 := to] == [to];
    Extend(s, s', Produce(0, act), registered);
  }

  /** A step of the one consumer. */
  lemma GoesOn(s: State, to: Waiter, s': State, act: WaitStep, registered: bool)
    requires Reachable(s, registered) && |s.waiters| == 1 && s'.waiters == [to]
    requires s.waiters[0 := to] == [to] ==> Waits(s, s', 0, act, registered)
    ensures Reachable(s', registered)
  {
    assert s.waiters[0 := to] == [to];
    Extend(s, s', Wait(0, act), registered);
  }

  lemma Start(registered: bool)
    ensures Reachable(Two(0, [], 0, 0, Idle, Off), registered)
  {
    var run := [Two(0, [], 0, 0, Idle, Off)];
    assert Run(run, registered);
  }

  lemma Fences()
    ensures Reachable(Two(0, [], 0, 1, Idle, Fenced(1, 0)), true)
  {
    Start(true);
    GoesOn(Two(0, [], 0, 0, Idle, Off), Checked(1), Two(0, [], 0, 0, Idle, Checked(1)), Begin(1), true);
    GoesOn(Two(0, [], 0, 0, Idle, Checked(1)), Loaded(1, 0), Two(0, [], 0, 0, Idle, Loaded(1, 0)), LoadWord, true);
    GoesOn(Two(0, [], 0, 0, Idle, Loaded(1, 0)), Registered(1, 0), Two(0, [], 0, 1, Idle, Registered(1, 0)), Register, true);
    var s := Two(0, [], 0, 1, Idle, Registered(1, 0));
    EmptyBuffers(s.producers);
    assert Drained(s) == s;
    GoesOn(s, Fenced(1, 0), Two(0, [], 0, 1, Idle, Fenced(1, 0)), Barrier, true);
  }

  lemma AboutToSleep()
    ensures Reachable(Two(0, [], 0, 1, Idle, Rechecked(1, 0)), true)
  {
    Fences();
    GoesOn(Two(0, [], 0, 1, Idle, Fenced(1, 0)), Rechecked(1, 0), Two(0, [], 0, 1, Idle, Rechecked(1, 0)), Recheck, true);
  }

  lemma Announces(m: nat, n: nat, w: Waiter)
    requires Reachable(Two(m, [], m, 1, Idle, w), true) && n > m
    ensures Reachable(Two(n, [], m, 1, Bumping, w), true)
  {
    assert [] + [n] == [n] && [n][1..] == [];
    var a, b := Two(m, [n], m, 1, Checking, w), Two(m, [n], m, 1, Bumping, w);
    Goes(Two(m, [], m, 1, Idle, w), Producer([n], Checking), a, Push(n), true);
    Goes(a, Producer([n], Bumping), b, Check, true);
    Goes(b, Producer([], Bumping), Two(n, [], m, 1, Bumping, w), Drain, true);
  }

  lemma Wakes(n: nat, m: nat, w: Waiter)
    requires Reachable(Two(n, [], m, 1, Bumping, w), true) && !w.Asleep?
    ensures Reachable(Two(n, [], m + 1, 1, Idle, w), true)
  {
    var a := Two(n, [], m + 1, 1, Waking, w);
    Goes(Two(n, [], m, 1, Bumping, w), Producer([], Waking), a, Bump, true);
    assert Woken([w]) == [w];
    Goes(a, Producer([], Idle), Two(n, [], m + 1, 1, Idle, w), Wake, true);
  }

  /** A consumer waiting for message 1 has rechecked; then `n` messages are pushed, each with a wake-up. */
  lemma {:induction false} AfterPushes(n: nat)
    ensures Reachable(Two(n, [], n, 1, Idle, Rechecked(1, 0)), true)
  {
    if n == 0 {
      AboutToSleep();
    } else {
      AfterPushes(n - 1);
      Announces(n - 1, n, Rechecked(1, 0));
      Wakes(n, n - 1, Rechecked(1, 0));
    }
  }

  /** The word can wrap: 2^32 wake-ups between the load and the sleep lose the last one. */
  lemma WrapLosesWakeup()
    ensures exists s :: Reachable(s, true) && LostWakeup(s, 0)
  {
    AfterPushes(WORDS);
    var s := Two(WORDS, [], WORDS, 1, Idle, Asleep(1, 0, WORDS));
    GoesOn(Two(WORDS, [], WORDS, 1, Idle, Rechecked(1, 0)), Asleep(1, 0, WORDS), s, Sleep, true);
    assert LostWakeup(s, 0);
  }

  /** Message 1 announced, and no one seen waiting, before a consumer comes. */
  lemma AnnouncedUnseen()
    ensures Reachable(Two(0, [1], 0, 0, Idle, Loaded(1, 0)), false)
  {
    Start(false);
    assert [] + [1] == [1];
    var a := Two(0, [1], 0, 0, Checking, Off);
    Goes(Two(0, [], 0, 0, Idle, Off), Producer([1], Checking), a, Push(1), false);
    Goes(a, Producer([1], Idle), Two(0, [1], 0, 0, Idle, Off), Check, false);
    GoesOn(Two(0, [1], 0, 0, Idle, Off), Checked(1), Two(0, [1], 0, 0, Idle, Checked(1)), Begin(1), false);
    GoesOn(Two(0, [1], 0, 0, Idle, Checked(1)), Loaded(1, 0), Two(0, [1], 0, 0, Idle, Loaded(1, 0)), LoadWord, false);
  }

  lemma SleepsUnseen()
    ensures Reachable(Two(0, [1], 0, 1, Idle, Asleep(1, 0, 0)), false)
  {
    AnnouncedUnseen();
    var a, b, c := Two(0, [1], 0, 1, Idle, Registered(1, 0)), Two(0, [1], 0, 1, Idle, Fenced(1, 0)),
                   Two(0, [1], 0, 1, Idle, Rechecked(1, 0));
    GoesOn(Two(0, [1], 0, 0, Idle, Loaded(1, 0)), Registered(1, 0), a, Register, false);
    GoesOn(a, Fenced(1, 0), b, Barrier, false);
    GoesOn(b, Rechecked(1, 0), c, Recheck, false);
    GoesOn(c, Asleep(1, 0, 0), Two(0, [1], 0, 1, Idle, Asleep(1, 0, 0)), Sleep, false);
  }

  /** The barrier is needed: with a producer that did not register for it, one message suffices. */
  lemma UnregisteredProducerLosesWakeup()
    ensures exists s :: Reachable(s, false) && LostWakeup(s, 0) && s.bumps == 0
  {
    SleepsUnseen();
    var s := Two(0, [1], 0, 1, Idle, Asleep(1, 0, 0));
    assert s.producers[0].buffer[0] == 1 && Newest(s.producers[0].buffer) >= 1;
    assert LostWakeup(s, 0);
  }
}
