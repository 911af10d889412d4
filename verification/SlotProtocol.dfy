/** The slot protocol of a single-writer ring, one step per atomic store, load or copied word.
    The writer marks a slot, copies the payload word by word and then stores the sequence; a
    reader checks the sequence, copies, and checks again. */
module SlotProtocol {
  import opened Modular

  /** A slot's sequence word; the write-in-progress marker is no sequence number. */
  datatype Word = Writing | Seq(n: nat)

  datatype Slot = Slot(word: Word, data: seq<int>)

  datatype Writer = Quiet | Copying(seq_: nat, item: seq<int>, k: nat)

  /** `hist` maps each message ever published in a slot to its payload; `top` is the last sequence
      whose slot was claimed and `writeSeq` the one announced in the header. Sequences increase but
      may have holes. */
  datatype Ring = Ring(cap: nat, width: nat, slots: seq<Slot>, writeSeq: nat,
                       hist: map<nat, seq<int>>, top: nat, writer: Writer)

  predicate Shape(r: Ring) {
    && r.cap >= 1 && |r.slots| == r.cap
    && forall i :: 0 <= i < r.cap ==> |r.slots[i].data| == r.width
  }

  function SlotOf(r: Ring, n: nat): Slot
    requires Shape(r)
  {
    r.slots[Ix(n, r.cap)]
  }

  function Fresh(cap: nat, width: nat): Ring
    requires cap >= 1
  {
    Ring(cap, width, seq(cap, _ => Slot(Seq(0), seq(width, _ => 0))), 0, map[], 0, Quiet)
  }

  // ------------------------------------------------------------------ writer steps

  datatype WriterStep = Begin(seq_: nat, item: seq<int>) | CopyWord | Finish | Publish

  predicate Writes(r: Ring, r': Ring, step: WriterStep) {
    && Shape(r)
    && match step
    case Begin(s, item) =>
      && r.writer.Quiet? && s > r.top && |item| == r.width
      && r' == r.(slots := r.slots[Ix(s, r.cap) := r.slots[Ix(s, r.cap)].(word := Writing)],
                  top := s, writer := Copying(s, item, 0))
    case CopyWord =>
      && r.writer.Copying? && r.writer.k < r.width && |r.writer.item| == r.width
      && var i := Ix(r.writer.seq_, r.cap);
      && r' == r.(slots := r.slots[i := r.slots[i].(data := r.slots[i].data[r.writer.k := r.writer.item[r.writer.k]])],
                  writer := r.writer.(k := r.writer.k + 1))
    case Finish =>
      && r.writer.Copying? && r.writer.k == r.width
      && var i := Ix(r.writer.seq_, r.cap);
      && r' == r.(slots := r.slots[i := r.slots[i].(word := Seq(r.writer.seq_))],
                  hist := r.hist[r.writer.seq_ := r.writer.item], writer := Quiet)
    case Publish => r.writer.Quiet? && r' == r.(writeSeq := r.top)
  }

  // ------------------------------------------------------------------ invariant

  /** Slot `i` holds the newest message ever published in it, or is being overwritten. */
  predicate SlotOk(r: Ring, i: nat)
    requires Shape(r) && i < r.cap
  {
    match r.slots[i].word
    case Writing =>
      && r.writer.Copying? && Ix(r.writer.seq_, r.cap) == i
      && r.writer.k <= r.width && |r.writer.item| == r.width
      && forall j :: 0 <= j < r.writer.k ==> r.slots[i].data[j] == r.writer.item[j]
    case Seq(n) =>
      && (n != 0 ==> n in r.hist && Ix(n, r.cap) == i && r.slots[i].data == r.hist[n])
      && forall m :: m in r.hist && Ix(m, r.cap) == i ==> m <= n
  }

  predicate WriterOk(r: Ring)
    requires Shape(r)
  {
    match r.writer
    case Quiet => r.top == 0 || r.top in r.hist
    case Copying(s, item, k) =>
      && s == r.top && s !in r.hist && s >= 1 && r.writeSeq < s && |item| == r.width && k <= r.width
      && SlotOf(r, s).word == Writing
  }

  predicate RingOk(r: Ring) {
    && Shape(r) && r.writeSeq <= r.top && WriterOk(r)
    && (forall n :: n in r.hist ==> 1 <= n <= r.top && |r.hist[n]| == r.width)
    && (forall i :: 0 <= i < r.cap ==> SlotOk(r, i))
  }

  lemma FreshHolds(cap: nat, width: nat)
    requires cap >= 1
    ensures RingOk(Fresh(cap, width))
  {
  }

  lemma BeginKeeps(r: Ring, r': Ring, s: nat, item: seq<int>)
    requires RingOk(r) && Writes(r, r', Begin(s, item))
    ensures RingOk(r')
  {
    forall i | 0 <= i < r.cap ensures SlotOk(r', i) { assert SlotOk(r, i); }
  }

  lemma CopyWordKeeps(r: Ring, r': Ring)
    requires RingOk(r) && Writes(r, r', CopyWord)
    ensures RingOk(r')
  {
    forall i | 0 <= i < r.cap ensures SlotOk(r', i) { assert SlotOk(r, i); }
  }

  lemma FinishKeeps(r: Ring, r': Ring)
    requires RingOk(r) && Writes(r, r', Finish)
    ensures RingOk(r')
  {
    var s, i0 := r.writer.seq_, Ix(r.writer.seq_, r.cap);
    assert SlotOk(r, i0);
    assert r.slots[i0].data == r.writer.item;
    forall i | 0 <= i < r.cap ensures SlotOk(r', i) { assert SlotOk(r, i); }
  }

  lemma WriterKeeps(r: Ring, r': Ring, step: WriterStep)
    requires RingOk(r) && Writes(r, r', step)
    ensures RingOk(r') && Evolves(r, r')
  {
    match step
    case Begin(s, item) => BeginKeeps(r, r', s, item);
    case CopyWord => CopyWordKeeps(r, r');
    case Finish => FinishKeeps(r, r');
    case Publish => forall i | 0 <= i < r.cap ensures SlotOk(r', i) { assert SlotOk(r, i); }
  }

  predicate Evolves(r: Ring, r': Ring) {
    && r.cap == r'.cap && r.width == r'.width && r.top <= r'.top && r.writeSeq <= r'.writeSeq
    && forall n :: n in r.hist ==> n in r'.hist && r'.hist[n] == r.hist[n]
  }

  // ------------------------------------------------------------------ what is still there

  predicate Readable(r: Ring, n: nat)
    requires Shape(r)
  {
    SlotOf(r, n).word == Seq(n)
  }

  /** Message `n` lies behind the writer and its slot no longer holds it: it was overwritten, or it
      was passed over and never written. */
  predicate Gone(r: Ring, n: nat)
    requires Shape(r)
  {
    1 <= n <= r.top && !Readable(r, n) && !(r.writer.Copying? && r.writer.seq_ == n)
  }

  /** What is gone stays gone. */
  lemma GoneForever(r: Ring, r': Ring, step: WriterStep, n: nat)
    requires RingOk(r) && Writes(r, r', step) && Gone(r, n)
    ensures Shape(r') && Gone(r', n)
  {
    WriterKeeps(r, r', step);
  }

  /** A slot that has moved past `n` is a whole ring ahead of it. */
  lemma SlotMovedOn(r: Ring, n: nat)
    requires RingOk(r) && n >= 1
    requires match SlotOf(r, n).word case Writing => r.writer.Copying? ==> r.writer.seq_ > n
                                     case Seq(m) => m > n
    ensures Gone(r, n) && r.top >= n + r.cap
    ensures SlotOf(r, n).word.Seq? ==> n + r.cap <= SlotOf(r, n).word.n <= r.top
  {
    assert SlotOk(r, Ix(n, r.cap));
    match SlotOf(r, n).word
    case Writing => SameRemainder(r.writer.seq_, n, r.cap);
    case Seq(m) => SameRemainder(m, n, r.cap);
  }

  lemma ReusedSlot(r: Ring, n: nat)
    requires RingOk(r) && n in r.hist && !Readable(r, n)
    ensures Gone(r, n) && r.top >= n + r.cap
  {
    assert SlotOk(r, Ix(n, r.cap));
    SlotMovedOn(r, n);
  }

  // ------------------------------------------------------------------ dense rings

  /** Every sequence up to `top` was written, as `RingProducer` and `BlobProducer` do. */
  predicate Dense(r: Ring) {
    forall n :: 1 <= n <= r.top && !(r.writer.Copying? && r.writer.seq_ == n) ==> n in r.hist
  }

  predicate DenseStep(r: Ring, step: WriterStep) { step.Begin? ==> step.seq_ == r.top + 1 }

  lemma DenseKept(r: Ring, r': Ring, step: WriterStep)
    requires RingOk(r) && Dense(r) && Writes(r, r', step) && DenseStep(r, step)
    ensures Dense(r')
  {
  }

  /** In a dense ring exactly the messages a full ring behind the writer are gone. */
  lemma DenseGone(r: Ring, n: nat)
    requires RingOk(r) && Dense(r) && 1 <= n <= r.top
    ensures Gone(r, n) <==> n + r.cap <= r.top
  {
    assert SlotOk(r, Ix(n, r.cap));
    if n in r.hist && !Readable(r, n) { ReusedSlot(r, n); }
    if n + r.cap <= r.top {
      var m := n + r.cap;
      assert Ix(m, r.cap) == Ix(n, r.cap);
      assert SlotOf(r, m) == SlotOf(r, n);
      if m !in r.hist { assert SlotOf(r, m).word == Writing; }
    }
  }

  // ------------------------------------------------------------------ one whole push

  /** The ring with the newest message's slot written. */
  function WithNext(r: Ring, item: seq<int>): Ring
    requires Shape(r)
  {
    var n := r.top + 1;
    r.(slots := r.slots[Ix(n, r.cap) := Slot(Seq(n), item)], top := n, hist := r.hist[n := item])
  }

  /** The ring with the next message's slot claimed. */
  function Begun(r: Ring, item: seq<int>): Ring
    requires Shape(r)
  {
    var n := r.top + 1;
    r.(slots := r.slots[Ix(n, r.cap) := r.slots[Ix(n, r.cap)].(word := Writing)], top := n, writer := Copying(n, item, 0))
  }

  /** So many words of the slot being written are in place. */
  predicate CopiedTo(r: Ring, n: nat, item: seq<int>, k: nat) {
    && Shape(r) && r.writer == Copying(n, item, k) && k <= r.width == |item|
    && SlotOf(r, n).data[..k] == item[..k]
  }

  function OneMore(r: Ring, n: nat, item: seq<int>, k: nat): Ring
    requires CopiedTo(r, n, item, k) && k < r.width
  {
    var i := Ix(n, r.cap);
    r.(slots := r.slots[i := r.slots[i].(data := r.slots[i].data[k := item[k]])], writer := Copying(n, item, k + 1))
  }

  lemma OneMoreCopied(r: Ring, n: nat, item: seq<int>, k: nat)
    requires CopiedTo(r, n, item, k) && k < r.width
    ensures CopiedTo(OneMore(r, n, item, k), n, item, k + 1) && Writes(r, OneMore(r, n, item, k), CopyWord)
  {
    var i := Ix(n, r.cap);
    assert r.slots[i].data[k := item[k]][..k + 1] == r.slots[i].data[..k] + [item[k]];
    assert item[..k + 1] == item[..k] + [item[k]];
  }

  /** The ring with the slot being written filled. */
  function AllCopied(r: Ring, n: nat, item: seq<int>): Ring
    requires Shape(r)
  {
    var i := Ix(n, r.cap);
    r.(slots := r.slots[i := r.slots[i].(data := item)], writer := Copying(n, item, r.width))
  }

  lemma NothingLeft(r: Ring, n: nat, item: seq<int>)
    requires CopiedTo(r, n, item, r.width)
    ensures AllCopied(r, n, item) == r
  {
    var data := SlotOf(r, n).data;
    assert data[..r.width] == data && item[..r.width] == item;
    assert AllCopied(r, n, item).slots == r.slots;
  }

  lemma SameInTheEnd(r: Ring, n: nat, item: seq<int>, k: nat)
    requires CopiedTo(r, n, item, k) && k < r.width
    ensures Shape(OneMore(r, n, item, k)) && AllCopied(OneMore(r, n, item, k), n, item) == AllCopied(r, n, item)
  {
    assert AllCopied(OneMore(r, n, item, k), n, item).slots == AllCopied(r, n, item).slots;
  }

  /** Claiming, copying every word and finishing write the next message. */
  lemma WrittenByFinish(r: Ring, item: seq<int>)
    requires Shape(r) && r.writer.Quiet? && |item| == r.width
    ensures Shape(Begun(r, item)) && Writes(AllCopied(Begun(r, item), r.top + 1, item), WithNext(r, item), WriterStep.Finish)
  {
    var n, q := r.top + 1, AllCopied(Begun(r, item), r.top + 1, item);
    var i := Ix(n, r.cap);
    assert q.slots[i := q.slots[i].(word := Seq(n))] == WithNext(r, item).slots;
  }

  // ------------------------------------------------------------------ reading a slot

  datatype Result = Item(data: seq<int>) | Pending | Overwritten(seen: nat)

  /** A read of message `want`: not begun, so many words copied, or finished. */
  datatype Read = Start | Copied(buf: seq<int>) | Done(res: Result)

  /** The next load of the read: the first check, one word, or the second check. */
  function ReadStep(r: Ring, want: nat, rd: Read): Read
    requires Shape(r) && !rd.Done? && (rd.Copied? ==> |rd.buf| <= r.width)
  {
    var slot := SlotOf(r, want);
    match rd
    case Start =>
      if slot.word == Seq(want) then Copied([])
      else if slot.word.Writing? || slot.word.n < want then Done(Pending)
      else Done(Overwritten(slot.word.n))
    case Copied(buf) =>
      if |buf| < r.width then Copied(buf + [slot.data[|buf|]])
      else if slot.word == Seq(want) then Done(Item(buf))
      else Done(Overwritten(if slot.word.Writing? then 0 else slot.word.n))
  }

  /** What a read under way knows: while its slot has not been touched, the words copied so far are
      the message's; a finished one either has the whole message or found it overwritten. */
  predicate ReadInv(r: Ring, want: nat, rd: Read)
    requires Shape(r)
  {
    match rd
    case Start => true
    case Copied(buf) =>
      && want in r.hist && |buf| <= r.width <= |r.hist[want]|
      && (Readable(r, want) ==> buf == r.hist[want][..|buf|])
    case Done(Item(data)) => want in r.hist && data == r.hist[want]
    case Done(Overwritten(seen)) => Gone(r, want) && r.top >= want + r.cap && (seen != 0 ==> seen in r.hist)
    case Done(Pending) => true
  }

  lemma ReadStepKeeps(r: Ring, want: nat, rd: Read)
    requires RingOk(r) && want >= 1 && !rd.Done? && ReadInv(r, want, rd)
    ensures ReadInv(r, want, ReadStep(r, want, rd))
  {
    assert SlotOk(r, Ix(want, r.cap));
    match rd
    case Start => if SlotOf(r, want).word.Seq? && SlotOf(r, want).word.n > want { SlotMovedOn(r, want); }
    case Copied(_) => if !Readable(r, want) { SlotMovedOn(r, want); }
  }

  /** A read survives whatever the writer does meanwhile. */
  lemma ReadUndisturbed(r: Ring, r': Ring, step: WriterStep, want: nat, rd: Read)
    requires RingOk(r) && Writes(r, r', step) && want >= 1 && ReadInv(r, want, rd)
    ensures Shape(r') && ReadInv(r', want, rd)
  {
    WriterKeeps(r, r', step);
    if rd.Done? && rd.res.Overwritten? { GoneForever(r, r', step, want); }
    if want in r.hist && !Readable(r, want) {
      ReusedSlot(r, want);
      GoneForever(r, r', step, want);
    }
  }
}
