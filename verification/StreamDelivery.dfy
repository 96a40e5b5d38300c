/**
 What streams deliver, over every interleaving: frames are contiguous pieces of
 the session's history, evictions report exactly the delivered end, and the exit
 notice is sent only at the final head.
 */
module StreamDelivery {
  import opened Base
  import opened StreamProtocol
  import opened WakeSignal
  import R = RingHistory

  /** `frames` are consecutive pieces of `h` from cursor `from` to cursor `to`, each naming its own end. */
  ghost predicate Contiguous(h: seq<byte>, from: nat, frames: seq<Frame>, to: nat)
  {
    if frames == [] then from == to
    else
      var f := frames[|frames| - 1];
      && f.headCursor == to <= |h|
      && 0 < |f.data| <= STREAM_CHUNK
      && from + |f.data| <= to
      && f.data == h[to - |f.data|..to]
      && Contiguous(h, from, frames[..|frames| - 1], to - |f.data|)
  }

  function Payload(frames: seq<Frame>): seq<byte> {
    if frames == [] then [] else Payload(frames[..|frames| - 1]) + frames[|frames| - 1].data
  }

  lemma {:induction false} ContiguousPayload(h: seq<byte>, from: nat, frames: seq<Frame>, to: nat)
    requires Contiguous(h, from, frames, to) && from <= |h|
    ensures from <= to <= |h| && Payload(frames) == h[from..to]
  {
    if frames != [] {
      var f := frames[|frames| - 1];
      ContiguousPayload(h, from, frames[..|frames| - 1], to - |f.data|);
      assert h[from..to] == h[from..to - |f.data|] + h[to - |f.data|..to];
    }
  }

  lemma {:induction false} ContiguousLater(h: seq<byte>, more: seq<byte>, from: nat, frames: seq<Frame>, to: nat)
    requires Contiguous(h, from, frames, to)
    ensures Contiguous(h + more, from, frames, to)
  {
    if frames != [] {
      var f := frames[|frames| - 1];
      ContiguousLater(h, more, from, frames[..|frames| - 1], to - |f.data|);
      assert (h + more)[to - |f.data|..to] == h[to - |f.data|..to];
    }
  }

  lemma ContiguousAppend(h: seq<byte>, from: nat, frames: seq<Frame>, to: nat, f: Frame)
    requires Contiguous(h, from, frames, to) && from <= to
    requires 0 < |f.data| <= STREAM_CHUNK && f.headCursor == to + |f.data| <= |h| && f.data == h[to..f.headCursor]
    ensures Contiguous(h, from, frames + [f], f.headCursor)
  {
    assert (frames + [f])[..|frames|] == frames;
  }

  // ---- the invariant ----

  ghost predicate SessionOk(s: Session) {
    && s.ring.Valid()
    && (s.alive <==> s.reader != Announcing && s.reader != Gone)
    && (s.reader.Signalling? ==> s.reader.left > 0)
  }

  predicate Sending(k: Task) {
    k.pc == SendCancel || k.pc == SendOffer
  }

  ghost predicate CursorOk(s: Session, k: Task) {
    var h, end := s.ring.history, k.DeliveredEnd();
    && k.start <= end <= k.cursor <= |h|
    && Contiguous(h, k.start, k.frames, end)
    && (k.pc == CheckHead ==> !s.alive)
    && (!Sending(k) && !k.Ended() ==> k.cursor == end)
    && (Sending(k) ==> 0 < |k.pending| <= STREAM_CHUNK && end + |k.pending| == k.cursor
                       && k.pending == h[end..k.cursor])
  }

  ghost predicate NoticeOk(s: Session, k: Task, n: Notice) {
    match n
    case OutputDropped => true
    case Evicted(last) => k.Ended() && last == k.DeliveredEnd()
    case Exited(head) => k.Ended() && k.liveAttach && !s.alive && head == s.Head() && head == k.DeliveredEnd()
  }

  ghost predicate TaskOk(s: Session, k: Task) {
    CursorOk(s, k) && forall n :: n in k.notices ==> NoticeOk(s, k, n)
  }

  ghost predicate HandlerOk(s: Session, h: HandlerPc) {
    match h
    case AskTail(_, head) => head <= s.Head()
    case Install(at) => at <= s.Head()
    case Evict(_, at, _) => at <= s.Head()
    case Record(_, at) => at <= s.Head()
    case AskAlive(_, at) => at <= s.Head()
    case Spawn(_, at, _) => at <= s.Head()
    case _ => true
  }

  ghost predicate Inv(s: State) {
    && SessionOk(s.sess)
    && (forall t :: t in s.tasks ==> TaskOk(s.sess, s.tasks[t]))
    && (forall c :: c in s.slot.handlers ==> HandlerOk(s.sess, s.slot.handlers[c]))
  }

  // ---- the reader thread ----

  /** How the session moves: output is only appended, and not after the exit is recorded. */
  ghost predicate Evolves(a: Session, b: Session) {
    && a.ring.history <= b.ring.history
    && (!a.alive ==> !b.alive && b.ring.history == a.ring.history)
  }

  lemma ReaderEvolves(s: Session, a: ReaderAct)
    requires SessionOk(s) && ReaderCan(s, a)
    ensures SessionOk(ReaderStep(s, a)) && Evolves(s, ReaderStep(s, a))
  {
  }

  lemma TaskOkLater(a: Session, b: Session, k: Task)
    requires SessionOk(a) && Evolves(a, b) && TaskOk(a, k)
    ensures TaskOk(b, k)
  {
    var more := b.ring.history[|a.ring.history|..];
    assert b.ring.history == a.ring.history + more;
    ContiguousLater(a.ring.history, more, k.start, k.frames, k.DeliveredEnd());
  }

  // ---- a stream task ----

  lemma ReadIsNeverInvalid(s: Session, k: Task)
    requires SessionOk(s) && TaskOk(s, k)
    ensures R.ReadAt(s.ring, k.cursor, STREAM_CHUNK) != R.Invalid
  {
  }

  lemma ReadStepCursor(s: Session, k: Task, cancelled: bool, woken: bool)
    requires SessionOk(s) && CursorOk(s, k) && k.pc == Read
    ensures CursorOk(s, TaskStep(k, s, cancelled, woken))
  {
    var k' := TaskStep(k, s, cancelled, woken);
    assert k'.DeliveredEnd() == k.DeliveredEnd() == k.cursor;
    if R.ReadAt(s.ring, k.cursor, STREAM_CHUNK).Data? {
      var data := R.ReadAt(s.ring, k.cursor, STREAM_CHUNK).data;
      assert |data| <= STREAM_CHUNK && k.cursor + |data| <= |s.ring.history|;
      assert data == s.ring.history[k.cursor..k.cursor + |data|];
    }
  }

  lemma TaskStepCursor(s: Session, k: Task, cancelled: bool, woken: bool)
    requires SessionOk(s) && CursorOk(s, k)
    ensures CursorOk(s, TaskStep(k, s, cancelled, woken))
  {
    if k.pc == Read {
      ReadStepCursor(s, k, cancelled, woken);
    } else {
      assert TaskStep(k, s, cancelled, woken).DeliveredEnd() == k.DeliveredEnd();
    }
  }

  /** A step adds at most one notice, and only as it leaves the loop unless it reports a drop. */
  lemma TaskStepNotices(s: Session, k: Task, cancelled: bool, woken: bool)
    requires SessionOk(s) && TaskOk(s, k)
    ensures var k' := TaskStep(k, s, cancelled, woken);
            forall n :: n in k'.notices ==> NoticeOk(s, k', n)
  {
    var k' := TaskStep(k, s, cancelled, woken);
    forall n | n in k'.notices
      ensures NoticeOk(s, k', n)
    {
      assert k'.DeliveredEnd() == k.DeliveredEnd();
      if n in k.notices {
        assert NoticeOk(s, k, n);
      }
    }
  }

  lemma TaskStepOk(s: Session, k: Task, cancelled: bool, woken: bool)
    requires SessionOk(s) && TaskOk(s, k)
    ensures TaskOk(s, TaskStep(k, s, cancelled, woken))
  {
    TaskStepCursor(s, k, cancelled, woken);
    TaskStepNotices(s, k, cancelled, woken);
  }

  lemma OfferStepCursor(s: Session, k: Task, o: Offered)
    requires SessionOk(s) && CursorOk(s, k) && k.pc == SendOffer
    ensures CursorOk(s, OfferStep(k, o))
  {
    if o == Accepted {
      var f := Frame(k.pending, k.cursor);
      ContiguousAppend(s.ring.history, k.start, k.frames, k.DeliveredEnd(), f);
      var k' := OfferStep(k, o);
      assert k'.frames[|k'.frames| - 1] == f;
    }
  }

  lemma OfferStepOk(s: Session, k: Task, o: Offered)
    requires SessionOk(s) && TaskOk(s, k) && k.pc == SendOffer
    ensures TaskOk(s, OfferStep(k, o))
  {
    OfferStepCursor(s, k, o);
    forall n | n in k.notices
      ensures NoticeOk(s, OfferStep(k, o), n)
    {
      assert NoticeOk(s, k, n);
    }
  }

  lemma StepKeepsInv(s: State, a: Action)
    requires Inv(s) && Can(s, a)
    ensures Inv(Step(s, a))
  {
    var s' := Step(s, a);
    match a {
      case Reader(act) =>
        ReaderEvolves(s.sess, act);
        forall t | t in s.tasks
          ensures TaskOk(s'.sess, s.tasks[t])
        {
          TaskOkLater(s.sess, s'.sess, s.tasks[t]);
        }
      case RunTask(t) =>
        TaskStepOk(s.sess, s.tasks[t], t in s.slot.cancelled, Ready(s.wake, t));
      case Offer(t, o) =>
        OfferStepOk(s.sess, s.tasks[t], o);
      case Request(c, req) =>
      case RunHandler(c) =>
        HandlerStepOk(s, c);
    }
  }

  lemma HandlerMoves(slot: Slot, s: Session, c: ConnId)
    requires c in slot.handlers && HandlerOk(s, slot.Handler(c))
    ensures var after := HandlerStep(slot, s, c).handlers;
            && after.Keys == slot.handlers.Keys && HandlerOk(s, after[c])
            && forall d :: d in after && d != c ==> after[d] == slot.handlers[d]
  {
  }

  lemma HandlerStepOk(s: State, c: ConnId)
    requires Inv(s) && Can(s, RunHandler(c))
    ensures Inv(Handle(s, c))
  {
    var h := s.slot.Handler(c);
    HandlerMoves(s.slot, s.sess, c);
    if h.Spawn? {
      assert TaskOk(s.sess, NewTask(c, h.at, h.live));
    }
  }

  lemma {:induction false} RunKeepsInv(s: State, acts: seq<Action>)
    requires Inv(s) && After(s, acts).Some?
    ensures Inv(After(s, acts).value)
  {
    if acts != [] {
      RunKeepsInv(s, acts[..|acts| - 1]);
      StepKeepsInv(After(s, acts[..|acts| - 1]).value, acts[|acts| - 1]);
    }
  }

  lemma EveryRunKeepsInv(cap: nat, acts: seq<Action>)
    requires After(Init(cap), acts).Some?
    ensures Inv(After(Init(cap), acts).value)
  {
    RunKeepsInv(Init(cap), acts);
  }

  // ---- what that says to an attached client ----

  /** On every run, what a stream has enqueued is exactly the history from its start to its delivered end. */
  lemma DeliversExactly(cap: nat, acts: seq<Action>, t: TaskId)
    requires After(Init(cap), acts).Some? && t in After(Init(cap), acts).value.tasks
    ensures var s := After(Init(cap), acts).value;
            var k := s.tasks[t];
            && k.start <= k.DeliveredEnd() <= s.sess.Head()
            && Contiguous(s.sess.ring.history, k.start, k.frames, k.DeliveredEnd())
            && Payload(k.frames) == s.sess.ring.history[k.start..k.DeliveredEnd()]
            && (!k.Ended() && !Sending(k) ==> k.cursor == k.DeliveredEnd())
  {
    EveryRunKeepsInv(cap, acts);
    var s := After(Init(cap), acts).value;
    assert TaskOk(s.sess, s.tasks[t]);
    ContiguousPayload(s.sess.ring.history, s.tasks[t].start, s.tasks[t].frames, s.tasks[t].DeliveredEnd());
  }

  /** A stream's cursor is never ahead of the head, so it never leaves its loop on an invalid cursor. */
  lemma InvalidIsUnreachable(cap: nat, acts: seq<Action>, t: TaskId)
    requires After(Init(cap), acts).Some? && t in After(Init(cap), acts).value.tasks
    ensures var s := After(Init(cap), acts).value;
            R.ReadAt(s.sess.ring, s.tasks[t].cursor, STREAM_CHUNK) != R.Invalid
  {
    EveryRunKeepsInv(cap, acts);
    var s := After(Init(cap), acts).value;
    ReadIsNeverInvalid(s.sess, s.tasks[t]);
  }

  /**
   A backpressure eviction names the end of what was delivered, so resuming from
   there loses and repeats nothing. SessionExited is sent only to a stream that
   was attached live and has been sent every byte there will ever be.
   */
  lemma NoticesAreTrue(cap: nat, acts: seq<Action>, t: TaskId, n: Notice)
    requires After(Init(cap), acts).Some? && t in After(Init(cap), acts).value.tasks
    requires n in After(Init(cap), acts).value.tasks[t].notices
    ensures var s := After(Init(cap), acts).value;
            var k := s.tasks[t];
            && k.start <= k.DeliveredEnd() <= s.sess.Head()
            && (n.Evicted? ==> k.Ended() && n.lastCursor == k.DeliveredEnd()
                                && Payload(k.frames) == s.sess.ring.history[k.start..n.lastCursor])
            && (n.Exited? ==>
                  && k.Ended() && k.liveAttach && !s.sess.alive
                  && n.headCursor == s.sess.Head()
                  && Payload(k.frames) == s.sess.ring.history[k.start..])
  {
    EveryRunKeepsInv(cap, acts);
    DeliversExactly(cap, acts, t);
    var s := After(Init(cap), acts).value;
    assert NoticeOk(s.sess, s.tasks[t], n);
  }

  /** Once the exit is recorded the head is final: nothing is accepted in any continuation. */
  lemma {:induction false} HeadIsFinalAfterExit(s: State, acts: seq<Action>)
    requires Inv(s) && !s.sess.alive && After(s, acts).Some?
    ensures var s' := After(s, acts).value;
            Inv(s') && !s'.sess.alive && s'.sess.ring.history == s.sess.ring.history
  {
    if acts != [] {
      HeadIsFinalAfterExit(s, acts[..|acts| - 1]);
      var m := After(s, acts[..|acts| - 1]).value;
      StepKeepsInv(m, acts[|acts| - 1]);
      if acts[|acts| - 1].Reader? {
        ReaderEvolves(m.sess, acts[|acts| - 1].act);
      }
    }
  }

  // ---- head and tail are read under separate locks ----

  /**
   The tail an attach decides by is read after the head. A cursor start is still
   a cursor the client asked for, within the head it is told of; a start at the
   earliest byte may lie past that head, exactly when the tail overtook it.
   */
  lemma AttachDecision(mode: AttachMode, before: R.Window, ps: seq<R.Push>)
    requires before.Valid()
    ensures var now := R.Run(before, ps);
            match DecideAttach(mode, before.Head(), now.Tail())
            case Start(at) =>
              && at <= now.Head()
              && (mode == LiveOnly ==> at == before.Head()) && (mode == FromEarliest ==> at == now.Tail())
              && (mode.FromCursor? ==> at == mode.from && now.Tail() <= at <= before.Head())
              && (at <= before.Head() <==> !(mode == FromEarliest && before.Head() < now.Tail()))
            case BufferGap(earliest) => mode.FromCursor? && earliest == now.Tail()
              && mode.from < earliest && mode.from <= before.Head()
            case InvalidArgument => mode.FromCursor? && mode.from > before.Head()
  {
    R.RunInvariant(before, ps);
  }

  /** An attach from the earliest byte can be answered with a head older than the byte its replay starts at. */
  lemma EarliestMayOvertakeReportedHead()
    ensures var before := R.New(2);
            var now := R.Run(before, [R.Stored([1, 2, 3])]);
            DecideAttach(FromEarliest, before.Head(), now.Tail()) == Start(1) && before.Head() == 0
  {
    var ps := [R.Stored([1, 2, 3])];
    assert ps[..0] == [];
    assert R.Run(R.New(2), ps) == R.Apply(R.New(2), R.Stored([1, 2, 3]));
  }
}
