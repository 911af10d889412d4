/** A push of the blob ring, once its bytes are reserved, can always be carried through: the payload is
    copied, the slot written and the message announced. */
module BlobPushing {
  import opened Modular
  import opened SlotProtocol
  import opened Arena
  import opened BlobRing

  /** Steps of the writer, with the state after each. */
  datatype Path = Here | Then(step: PushStep, state: State, rest: Path)

  predicate Leads(g: Geometry, s: State, path: Path, s': State)
    decreases path
  {
    match path
    case Here => s == s'
    case Then(step, m, rest) => !step.Reserve? && Pushes(g, s, m, step) && Leads(g, m, rest, s')
  }

  /** The writer gets there by finitely many steps, none of them a new reservation. */
  ghost predicate Comes(g: Geometry, s: State, s': State) { exists path :: Leads(g, s, path, s') }

  lemma ComesFirst(g: Geometry, s: State, m: State, s': State, step: PushStep)
    requires !step.Reserve? && Pushes(g, s, m, step) && Comes(g, m, s')
    ensures Comes(g, s, s')
  {
    var path :| Leads(g, m, path, s');
    assert Leads(g, s, Then(step, m, path), s');
  }

  function Stage(s: State): nat { match s.phase case Filling(_) => 2 case Storing => 1 case Ready => 0 }

  function Left(s: State): nat {
    match s.phase
    case Filling(k) => if HasLast(s) && k <= |Last(s).payload| then |Last(s).payload| - k else 0
    case Storing => if s.ring.writer.Copying? && s.ring.writer.k <= s.ring.width then s.ring.width - s.ring.writer.k else 0
    case Ready => 0
  }

  /** The writer comes closer to the end of its push, and pushes nothing else. */
  predicate Closer(s: State, s': State) {
    && s'.sent == s.sent && s'.last == s.last && s'.reserved == s.reserved && |s'.data| == |s.data|
    && s'.ring.cap == s.ring.cap
    && (Stage(s') < Stage(s) || (Stage(s') == Stage(s) && Left(s') < Left(s)))
  }

  lemma FillGoesOn(g: Geometry, s: State) returns (s': State, step: PushStep)
    requires StateOk(g, s) && s.phase.Filling?
    ensures Pushes(g, s, s', step) && !step.Reserve? && Closer(s, s')
  {
    var p, k := Last(s), s.phase.k;
    assert PacketOk(g, s, p) && BytesOk(s, s.last);
    if k < |p.payload| {
      step := Fill;
      s' := s.(data := s.data[At(p.blob, k, |s.data|) := p.payload[k]], phase := Filling(k + 1));
    } else {
      var i := Ix(s.last, s.ring.cap);
      step := Store(WriterStep.Begin(s.last, p.descriptor));
      s' := s.(ring := s.ring.(slots := s.ring.slots[i := s.ring.slots[i].(word := Writing)], top := s.last,
                               writer := Copying(s.last, p.descriptor, 0)), phase := Storing);
    }
  }

  lemma StoreGoesOn(g: Geometry, s: State) returns (s': State, step: PushStep)
    requires StateOk(g, s) && s.phase.Storing?
    ensures Pushes(g, s, s', step) && !step.Reserve? && Closer(s, s')
  {
    var r, w := s.ring, s.ring.writer;
    var i := Ix(w.seq_, r.cap);
    assert SlotOk(r, i);
    if w.k < r.width {
      step := Store(WriterStep.CopyWord);
      s' := s.(ring := r.(slots := r.slots[i := r.slots[i].(data := r.slots[i].data[w.k := w.item[w.k]])],
                          writer := w.(k := w.k + 1)));
    } else {
      step := Store(WriterStep.Finish);
      s' := s.(ring := r.(slots := r.slots[i := r.slots[i].(word := Seq(w.seq_))],
                          hist := r.hist[w.seq_ := w.item], writer := Quiet), phase := Ready);
    }
  }

  /** Nothing is under way, and everything written is announced. */
  predicate AllAnnounced(s: State) {
    s.phase.Ready? && s.ring.writer.Quiet? && s.ring.writeSeq == s.ring.top == s.last
  }

  lemma Announces(g: Geometry, s: State) returns (s': State)
    requires StateOk(g, s) && s.phase.Ready?
    ensures Comes(g, s, s') && s' == s.(ring := s.ring.(writeSeq := s.ring.top)) && AllAnnounced(s')
  {
    s' := s.(ring := s.ring.(writeSeq := s.ring.top));
    assert Leads(g, s', Here, s');
    ComesFirst(g, s, s', s', Announce);
  }

  lemma {:induction false} Completes(g: Geometry, s: State) returns (s': State)
    requires StateOk(g, s)
    ensures Comes(g, s, s') && StateOk(g, s') && AllAnnounced(s')
    ensures s'.sent == s.sent && s'.last == s.last && s'.reserved == s.reserved && s'.ring.cap == s.ring.cap
    ensures |s'.data| == |s.data|
    decreases Stage(s), Left(s)
  {
    if s.phase.Ready? {
      s' := Announces(g, s);
      AnnounceKeeps(g, s, s');
    } else {
      var m: State, step: PushStep;
      if s.phase.Filling? { m, step := FillGoesOn(g, s); } else { m, step := StoreGoesOn(g, s); }
      PushKeeps(g, s, m, step);
      s' := Completes(g, m);
      ComesFirst(g, s, m, s', step);
    }
  }

  lemma NewestIsReadable(g: Geometry, s: State)
    requires StateOk(g, s) && AllAnnounced(s) && s.last >= 1
    ensures s.last in s.sent && Readable(s.ring, s.last) && SlotOf(s.ring, s.last).data == s.sent[s.last].descriptor
  {
    assert s.last in s.ring.hist;
    assert SlotOk(s.ring, Ix(s.last, s.ring.cap));
  }

  lemma NewestBytes(g: Geometry, s: State)
    requires StateOk(g, s) && AllAnnounced(s) && s.last >= 1 && s.last in s.sent
    ensures var p := s.sent[s.last];
            InBounds(p.blob, |s.data|) && p.blob.len == |p.payload|
            && (s.reserved <= p.blob.offset + |s.data| ==> BytesAt(s.data, p.blob) == p.payload)
  {
    var p := s.sent[s.last];
    assert PacketOk(g, s, p) && BytesOk(s, s.last);
    if s.reserved <= p.blob.offset + |s.data| {
      assert forall k :: 0 <= k < |p.payload| ==> BytesAt(s.data, p.blob)[k] == s.data[At(p.blob, k, |s.data|)];
    }
  }

  /** Wherever the writer stands in a push, finitely many steps of its own complete it: the newest
      message is then announced and in its slot, and its bytes, unless another reservation has lapped
      them, are in the arena. */
  lemma PushCompletes(g: Geometry, s: State)
    requires StateOk(g, s) && s.last >= 1
    ensures s.last in s.sent
    ensures exists s' :: && Comes(g, s, s') && AllAnnounced(s') && s'.sent == s.sent && s'.last == s.last
                         && Shape(s'.ring) && Readable(s'.ring, s.last)
                         && SlotOf(s'.ring, s.last).data == s.sent[s.last].descriptor
                         && var b := s.sent[s.last].blob;
                         && |s'.data| >= 1 && InBounds(b, |s'.data|)
                         && (s.reserved <= b.offset + |s'.data| ==> BytesAt(s'.data, b) == s.sent[s.last].payload)
  {
    var s' := Completes(g, s);
    NewestIsReadable(g, s');
    NewestBytes(g, s');
  }

  lemma {:induction false} WidthKept(g: Geometry, s: State, path: Path, s': State)
    requires Leads(g, s, path, s')
    ensures s'.ring.width == s.ring.width
    decreases path
  {
    match path
    case Here =>
    case Then(_, m, rest) => WidthKept(g, m, rest, s');
  }
}
