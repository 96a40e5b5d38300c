/**
 Runs on which every attach is orderly: what the daemon stores, queues and is being sent is
 the output in order. They are so unless a resync replaces a stream that was not evicted,
 or the route's cursor is set back.
 */
module ColdOrder {
  import opened Base
  import P = StreamProtocol
  import opened EventStore
  import opened ColdLog
  import opened ColdStitch
  import R = RingHistory

  // ---- frames in order ----

  /** Frames after cursor `from` in order, each a piece of `h`; between them there may be holes. */
  ghost predicate FramesOk(h: seq<byte>, from: nat, fs: seq<P.Frame>, to: nat)
    decreases |fs|
  {
    if fs == [] then from <= to <= |h|
    else
      && PieceOk(h, fs[0].data, fs[0].headCursor) && from <= Begin(fs[0])
      && FramesOk(h, fs[0].headCursor, fs[1..], to)
  }

  function FramesEnd(from: nat, fs: seq<P.Frame>): nat {
    if fs == [] then from else fs[|fs| - 1].headCursor
  }

  lemma {:induction false} FramesLater(h: seq<byte>, more: seq<byte>, from: nat, fs: seq<P.Frame>, to: nat)
    requires FramesOk(h, from, fs, to)
    ensures FramesOk(h + more, from, fs, to)
    decreases |fs|
  {
    if fs != [] {
      PieceLater(h, more, fs[0].data, fs[0].headCursor);
      FramesLater(h, more, fs[0].headCursor, fs[1..], to);
    }
  }

  lemma {:induction false} FramesAppend(h: seq<byte>, from: nat, fs: seq<P.Frame>, to: nat, f: P.Frame)
    requires FramesOk(h, from, fs, to) && PieceOk(h, f.data, f.headCursor) && to <= Begin(f)
    ensures FramesOk(h, from, fs + [f], f.headCursor)
    decreases |fs|
  {
    if fs != [] {
      assert (fs + [f])[0] == fs[0] && (fs + [f])[1..] == fs[1..] + [f];
      FramesAppend(h, fs[0].headCursor, fs[1..], to, f);
    }
  }

  /** What follows the last frame may start anywhere at or past its end. */
  lemma {:induction false} FramesReach(h: seq<byte>, from: nat, fs: seq<P.Frame>, to: nat, to': nat)
    requires FramesOk(h, from, fs, to) && FramesEnd(from, fs) <= to' <= |h|
    ensures FramesOk(h, from, fs, to')
    ensures from <= FramesEnd(from, fs) <= to
    decreases |fs|
  {
    if fs != [] {
      FramesReach(h, fs[0].headCursor, fs[1..], to, to');
    }
  }

  lemma {:induction false} FramesBound(h: seq<byte>, from: nat, fs: seq<P.Frame>, to: nat)
    requires FramesOk(h, from, fs, to)
    ensures from <= FramesEnd(from, fs) <= to <= |h|
    decreases |fs|
  {
    if fs != [] {
      FramesBound(h, fs[0].headCursor, fs[1..], to);
    }
  }

  lemma FramesFrom(h: seq<byte>, from: nat, fs: seq<P.Frame>, to: nat, from': nat)
    requires FramesOk(h, from, fs, to) && from' <= from
    ensures FramesOk(h, from', fs, to)
  {
    FramesBound(h, from, fs, to);
  }

  // ---- orderly runs ----

  /** What has been handed over or is being offered, and has not arrived. */
  function Flight(d: Daemon): seq<P.Frame>
    requires d.Up?
  {
    d.wire + Pending(d)
  }

  /** Where the output that has been queued and handed over so far ends. */
  function HandedEnd(w: World): nat
    requires w.daemon.Up?
  {
    FramesEnd(QueueEnd(w.log.cursor, w.daemon.queue), Flight(w.daemon))
  }

  /**
   A resync that replaces the stream, unless the ring has lapped the new one already, starts it
   at or past the end of what was handed over, with no frame being offered; a reconnect starts
   its stream at or past the end of what has arrived.
   */
  predicate Orderly(w: World, a: Act) {
    && (a.Land? && Can(w, a) && w.ring.Tail() <= w.daemon.starting.value ==>
          HandedEnd(w) <= w.daemon.starting.value && Pending(w.daemon) == [])
    && (a.Reconnect? && Can(w, a) && Answer(w.ring, P.FromCursor(w.daemon.got)).Start? ==>
          QueueEnd(w.log.cursor, w.daemon.queue) <= w.daemon.got)
  }

  ghost predicate OrderlyRun(w: World, acts: seq<Act>) {
    acts != [] ==>
      && OrderlyRun(w, acts[..|acts| - 1])
      && (After(w, acts[..|acts| - 1]).Some? ==> Orderly(After(w, acts[..|acts| - 1]).value, acts[|acts| - 1]))
  }

  /** The stream can still read. */
  predicate Reading(ring: R.Window, d: Daemon)
    requires d.Up?
  {
    d.live && ring.Tail() <= d.sent
  }

  /** What has been handed over ends where the stream stands, if it can read on. */
  function Bound(ring: R.Window, d: Daemon): nat
    requires d.Up?
  {
    if Reading(ring, d) then d.sent else ring.Head()
  }

  ghost predicate QueueOk(h: seq<byte>, l: Log, d: Daemon) {
    !d.Down? ==> EventsOk(h, l.cursor, MaxSeq(l.rows), d.queue, QueueEnd(l.cursor, d.queue), d.lastSeq)
  }

  ghost predicate FlightOk(ring: R.Window, l: Log, d: Daemon) {
    d.Up? ==>
      && d.persistFrom <= l.cursor
      && FramesOk(ring.history, QueueEnd(l.cursor, d.queue), Flight(d), Bound(ring, d))
      && |Pending(d)| <= 1 && (d.stragglers != [] ==> !Reading(ring, d))
  }

  /** Where a stream started for the request begins, at the least. */
  function Least(ring: R.Window, mode: P.AttachMode): nat {
    if mode.FromCursor? then mode.from else ring.Tail()
  }

  /** Nothing is asked for that was cold history when the daemon started. */
  ghost predicate AsksNew(ring: R.Window, d: Daemon) {
    d.Up? ==>
      && d.persistFrom <= d.got
      && (forall i :: 0 <= i < |d.settling| ==> d.persistFrom <= d.settling[i])
      && (d.starting.Some? ==> d.persistFrom <= d.starting.value)
      && forall i :: 0 <= i < |d.asks| ==> d.persistFrom <= Least(ring, d.asks[i])
  }

  ghost predicate Inv(w: World) {
    && Sound(w)
    && LogOk(w.ring.history, w.log, w.lost)
    && QueueOk(w.ring.history, w.log, w.daemon)
    && FlightOk(w.ring, w.log, w.daemon)
    && AsksNew(w.ring, w.daemon)
  }

  lemma PushKeepsFlight(ring: R.Window, p: R.Push, l: Log, d: Daemon)
    requires ring.Valid() && QueueOk(ring.history, l, d) && FlightOk(ring, l, d)
    ensures QueueOk(R.Apply(ring, p).history, l, d) && FlightOk(R.Apply(ring, p), l, d)
  {
    R.ApplyKeepsValid(ring, p);
    var h, ring' := ring.history, R.Apply(ring, p);
    var more := ring'.history[|h|..];
    assert ring'.history == h + more;
    if !d.Down? {
      var end := QueueEnd(l.cursor, d.queue);
      EventsLater(h, more, l.cursor, MaxSeq(l.rows), d.queue, end, d.lastSeq);
      if d.Up? {
        FramesLater(h, more, end, Flight(d), Bound(ring, d));
        FramesBound(h + more, end, Flight(d), Bound(ring, d));
        FramesReach(h + more, end, Flight(d), Bound(ring, d), Bound(ring', d));
      }
    }
  }

  lemma PushKeepsInv(w: World, p: R.Push)
    requires Inv(w)
    ensures Inv(Step(w, Push(p)))
  {
    PushKeepsSound(w, p);
    PushKeepsFlight(w.ring, p, w.log, w.daemon);
    R.ApplyKeepsValid(w.ring, p);
    var h, h' := w.ring.history, R.Apply(w.ring, p).history;
    var more := h'[|h|..];
    assert h' == h + more;
    SurvivingFrame(h, more, w.lost, {}, w.log.cursor);
    assert w.lost + {} == w.lost;
  }

  lemma EmitKeepsInv(w: World)
    requires Inv(w) && Can(w, Emit)
    ensures Inv(Step(w, Emit)) && Pending(w.daemon) == []
    ensures Flight(Step(w, Emit).daemon) == Flight(w.daemon) + [Step(w, Emit).daemon.offering.value]
  {
    StepKeepsSound(w, Emit);
    ReadIsPiece(w);
    var d, f := w.daemon, ReadOn(w.ring, w.daemon).offering.value;
    assert Reading(w.ring, d);
    FramesAppend(w.ring.history, QueueEnd(w.log.cursor, d.queue), Flight(d), d.sent, f);
    assert Flight(ReadOn(w.ring, d)) == Flight(d) + [f];
  }

  lemma EnqueueKeepsInv(w: World)
    requires Inv(w) && Can(w, Enqueue)
    ensures Inv(Step(w, Enqueue)) && Flight(Step(w, Enqueue).daemon) == Flight(w.daemon)
  {
    StepKeepsSound(w, Enqueue);
    assert w.daemon.stragglers == [];
    assert Flight(Step(w, Enqueue).daemon) == Flight(w.daemon);
  }

  lemma {:induction false} FramesButLast(h: seq<byte>, from: nat, fs: seq<P.Frame>, to: nat)
    requires FramesOk(h, from, fs, to) && fs != []
    ensures FramesOk(h, from, fs[..|fs| - 1], to)
    decreases |fs|
  {
    if |fs| > 1 {
      FramesButLast(h, fs[0].headCursor, fs[1..], to);
      assert fs[1..][..|fs| - 2] == fs[..|fs| - 1][1..];
    } else {
      FramesBound(h, from, fs, to);
    }
  }

  /** Only one frame can be offered by a replaced stream, and it is the last handed over. */
  lemma StraggledIsOk(ring: R.Window, l: Log, d: Daemon, through: bool)
    requires d.Up? && d.stragglers != [] && FlightOk(ring, l, d)
    ensures FlightOk(ring, l, Straggled(d, through))
  {
    var all := Flight(d);
    FramesButLast(ring.history, QueueEnd(l.cursor, d.queue), all, Bound(ring, d));
    assert d.stragglers == [d.stragglers[0]];
    assert Flight(Straggled(d, through)) == if through then all else all[..|all| - 1];
  }

  lemma StraggleKeepsInv(w: World, through: bool)
    requires Inv(w) && Can(w, Straggle(through))
    ensures Inv(Step(w, Straggle(through)))
  {
    HandingKeepsSound(w, Straggle(through));
    StraggledIsOk(w.ring, w.log, w.daemon, through);
  }

  lemma ArrivedIs(ring: R.Window, l: Log, d: Daemon)
    requires d.Up? && d.wire != [] && QueueOk(ring.history, l, d) && FlightOk(ring, l, d)
    ensures var d' := Drained(d);
            && Flight(d) == [d.wire[0]] + Flight(d')
            && d'.queue == d.queue + [Event(d.lastSeq + 1, d.wire[0].data, d.wire[0].headCursor)]
            && QueueEnd(l.cursor, d.queue) <= Begin(d.wire[0]) && d.persistFrom < d'.got
  {
    var f := d.wire[0];
    assert Flight(d)[0] == f && Flight(d)[1..] == Flight(Drained(d));
    assert Flight(d) == [f] + Flight(Drained(d));
    EventsEnd(ring.history, l.cursor, MaxSeq(l.rows), d.queue, QueueEnd(l.cursor, d.queue), d.lastSeq);
  }

  /** An arriving frame is queued as the next event, in place. */
  lemma DrainedIsOk(ring: R.Window, l: Log, d: Daemon)
    requires d.Up? && d.wire != [] && QueueOk(ring.history, l, d) && FlightOk(ring, l, d) && AsksNew(ring, d)
    ensures QueueOk(ring.history, l, Drained(d)) && FlightOk(ring, l, Drained(d)) && AsksNew(ring, Drained(d))
  {
    ArrivedIs(ring, l, d);
    var f := d.wire[0];
    assert Flight(d)[0] == f && Flight(d)[1..] == Flight(Drained(d));
    EventsAppend(ring.history, l.cursor, MaxSeq(l.rows), d.queue, QueueEnd(l.cursor, d.queue), d.lastSeq,
                 Event(d.lastSeq + 1, f.data, f.headCursor));
  }

  lemma ReceiveKeepsInv(w: World)
    requires Inv(w) && Can(w, Receive)
    ensures Inv(Step(w, Receive))
  {
    DrainedIsSound(w.ring, w.daemon);
    DrainedIsOk(w.ring, w.log, w.daemon);
  }

  lemma NoticesKeepInv(w: World, a: Act)
    requires Inv(w) && Can(w, a) && (a.Evict? || a.Lapse? || a.Hear?)
    ensures Inv(Step(w, a))
  {
    NoticesKeepSound(w, a);
  }

  lemma AskKeepsInv(w: World)
    requires Inv(w) && Can(w, Ask)
    ensures Inv(Step(w, Ask))
  {
    NoticesKeepSound(w, Ask);
  }

  lemma SettleKeepsInv(w: World, applied: bool)
    requires Inv(w) && Can(w, Settle(applied))
    ensures Inv(Step(w, Settle(applied)))
  {
    NoticesKeepSound(w, Settle(applied));
  }

  lemma FinishKeepsInv(w: World)
    requires Inv(w) && Can(w, Finish)
    ensures Inv(Step(w, Finish))
  {
    NoticesKeepSound(w, Finish);
  }

  /** A decision leaves everything alone but requests and what is to come of them. */
  lemma ServedKeeps(ring: R.Window, d: Daemon)
    requires d.Up? && d.asks != []
    ensures var d' := Served(ring, d);
            && d'.Up? && d'.live == d.live && d'.sent == d.sent && d'.stragglers == d.stragglers
            && d'.got == d.got && d'.persistFrom == d.persistFrom && d'.lastSeq == d.lastSeq && d'.queue == d.queue
            && Pending(d') == Pending(d) && Flight(d') == Flight(d)
  {
  }

  lemma ServedIsOk(ring: R.Window, l: Log, d: Daemon)
    requires ring.Valid() && d.Up? && d.asks != [] && SoundDaemon(ring, d)
    requires QueueOk(ring.history, l, d) && FlightOk(ring, l, d) && AsksNew(ring, d)
    ensures var d' := Served(ring, d); QueueOk(ring.history, l, d') && FlightOk(ring, l, d') && AsksNew(ring, d')
  {
    ServedKeeps(ring, d);
    AnswerIs(ring, d.asks[0]);
  }

  lemma ServeKeepsInv(w: World)
    requires Inv(w) && Can(w, Serve)
    ensures Inv(Step(w, Serve))
  {
    ServedIsSound(w.ring, w.daemon);
    ServedIsOk(w.ring, w.log, w.daemon);
  }

  lemma LandKeepsInv(w: World)
    requires Inv(w) && Can(w, Land) && Orderly(w, Land)
    ensures Inv(Step(w, Land)) && Flight(Step(w, Land).daemon) == Flight(w.daemon)
  {
    LandedIsSound(w.ring, w.daemon);
    var h, d, d' := w.ring.history, w.daemon, Landed(w.daemon);
    var end := QueueEnd(w.log.cursor, d.queue);
    assert Pending(d') == Pending(d);
    FramesBound(h, end, Flight(d), Bound(w.ring, d));
    FramesReach(h, end, Flight(d), Bound(w.ring, d), Bound(w.ring, d'));
  }

  lemma ReconnectIsOk(ring: R.Window, l: Log, d: Daemon, kept: nat)
    requires ring.Valid() && d.Up? && d.got <= ring.Head() && kept <= |d.asks|
    requires FlightOk(ring, l, d) && AsksNew(ring, d)
    requires ring.Tail() <= d.got ==> QueueEnd(l.cursor, d.queue) <= d.got
    ensures var d' := Reconnected(ring, d, kept); FlightOk(ring, l, d') && AsksNew(ring, d') && Flight(d') == []
  {
    ReconnectedIs(ring, d, kept);
    FramesBound(ring.history, QueueEnd(l.cursor, d.queue), Flight(d), Bound(ring, d));
  }

  lemma ReconnectKeepsInv(w: World, kept: nat)
    requires Inv(w) && Can(w, Reconnect(kept)) && Orderly(w, Reconnect(kept))
    ensures Inv(Step(w, Reconnect(kept))) && Flight(Step(w, Reconnect(kept)).daemon) == []
  {
    StepKeepsSound(w, Reconnect(kept));
    AnswerIs(w.ring, P.FromCursor(w.daemon.got));
    ReconnectIsOk(w.ring, w.log, w.daemon, kept);
  }

  lemma QueueEndAfter(from: nat, es: seq<Event>, n: nat)
    requires n <= |es|
    ensures QueueEnd(QueueEnd(from, es[..n]), es[n..]) == QueueEnd(from, es)
  {
  }

  lemma CommitIsOk(h: seq<byte>, l: Log, lost: set<nat>, d: Daemon, n: nat)
    requires LogOk(h, l, lost) && QueueOk(h, l, d) && !d.Down? && n <= |d.queue|
    ensures var l' := PersistAll(l, d.queue[..n]);
            && LogOk(h, l', lost + Skipped(l.cursor, d.queue[..n]))
            && QueueOk(h, l', d.(queue := d.queue[n..]))
            && QueueEnd(l'.cursor, d.queue[n..]) == QueueEnd(l.cursor, d.queue) && l.cursor <= l'.cursor
  {
    PersistBatch(h, l, lost, d.queue, n, QueueEnd(l.cursor, d.queue), d.lastSeq);
    QueueEndAfter(l.cursor, d.queue, n);
  }

  lemma CommitKeepsInv(w: World, n: nat)
    requires Inv(w) && Can(w, Commit(n))
    ensures Inv(Step(w, Commit(n)))
    ensures var w' := Step(w, Commit(n));
            QueueEnd(w'.log.cursor, w'.daemon.queue) == QueueEnd(w.log.cursor, w.daemon.queue)
  {
    StepKeepsSound(w, Commit(n));
    var d := w.daemon;
    CommitIsOk(w.ring.history, w.log, w.lost, d, n);
    if d.Up? {
      assert Flight(Step(w, Commit(n)).daemon) == Flight(d);
    }
  }

  lemma FailedIsOk(ring: R.Window, l: Log, d: Daemon, n: nat)
    requires !d.Down? && n <= |d.queue| && QueueOk(ring.history, l, d) && FlightOk(ring, l, d)
    ensures var d' := d.(queue := d.queue[n..]);
            && QueueOk(ring.history, l, d') && FlightOk(ring, l, d')
            && QueueEnd(l.cursor, d'.queue) <= QueueEnd(l.cursor, d.queue)
  {
    var h, end, end' := ring.history, QueueEnd(l.cursor, d.queue), QueueEnd(l.cursor, d.queue[n..]);
    EventsDrop(h, l.cursor, MaxSeq(l.rows), d.queue, n, end, d.lastSeq);
    EventsReachEnd(h, l.cursor, MaxSeq(l.rows), d.queue[n..], end, d.lastSeq);
    if d.Up? {
      FramesFrom(h, end, Flight(d), Bound(ring, d), end');
    }
  }

  lemma FailBatchKeepsInv(w: World, n: nat)
    requires Inv(w) && Can(w, FailBatch(n))
    ensures Inv(Step(w, FailBatch(n)))
    ensures QueueEnd(w.log.cursor, w.daemon.queue[n..]) <= QueueEnd(w.log.cursor, w.daemon.queue)
  {
    StepKeepsSound(w, FailBatch(n));
    FailedIsOk(w.ring, w.log, w.daemon, n);
  }

  lemma AdoptKeepsInv(w: World)
    requires Inv(w) && Can(w, Adopt)
    ensures Inv(Step(w, Adopt)) && Step(w, Adopt).daemon.Up?
  {
    StepKeepsSound(w, Adopt);
    AnswerIs(w.ring, P.FromCursor(w.log.cursor));
  }

  lemma StepKeepsInv(w: World, a: Act)
    requires Inv(w) && Can(w, a) && Orderly(w, a)
    ensures Inv(Step(w, a))
  {
    match a {
      case Push(p) => PushKeepsInv(w, p);
      case Emit => EmitKeepsInv(w);
      case Enqueue => EnqueueKeepsInv(w);
      case Straggle(through) => StraggleKeepsInv(w, through);
      case Receive => ReceiveKeepsInv(w);
      case Serve => ServeKeepsInv(w);
      case Land => LandKeepsInv(w);
      case Reconnect(kept) => ReconnectKeepsInv(w, kept);
      case Commit(n) => CommitKeepsInv(w, n);
      case FailBatch(n) => FailBatchKeepsInv(w, n);
      case Crash =>
      case Adopt => AdoptKeepsInv(w);
      case Ask => AskKeepsInv(w);
      case Settle(applied) => SettleKeepsInv(w, applied);
      case Finish => FinishKeepsInv(w);
      case _ => NoticesKeepInv(w, a);
    }
  }

  lemma {:induction false} OrderlyRunsKeepInv(w: World, acts: seq<Act>)
    requires Inv(w) && After(w, acts).Some? && OrderlyRun(w, acts)
    ensures Inv(After(w, acts).value)
  {
    if acts != [] {
      OrderlyRunsKeepInv(w, acts[..|acts| - 1]);
      StepKeepsInv(After(w, acts[..|acts| - 1]).value, acts[|acts| - 1]);
    }
  }

  lemma InitIsOk(cap: nat)
    ensures Inv(Init(cap))
  {
    MaxIs(map[], 0);
  }

  /**
   On every run whose attaches are orderly, crashes, reconnects, gaps and failed batches
   included, the stored events in order are the session's output up to the backend cursor,
   each byte once and in place, less exactly the positions counted lost.
   */
  lemma StoredIsHistoryLessLost(cap: nat, acts: seq<Act>)
    requires After(Init(cap), acts).Some? && OrderlyRun(Init(cap), acts)
    ensures var w := After(Init(cap), acts).value;
            && w.log.cursor <= |w.ring.history|
            && Cold(w.log) == Surviving(w.ring.history, w.lost, w.log.cursor)
            && (Cold(w.log) == w.ring.history[..w.log.cursor] <==> w.lost == {})
  {
    InitIsOk(cap);
    OrderlyRunsKeepInv(Init(cap), acts);
    ExactIffNothingLost(After(Init(cap), acts).value);
  }

  lemma ExactIffNothingLost(w: World)
    requires LogOk(w.ring.history, w.log, w.lost)
    ensures Cold(w.log) == w.ring.history[..w.log.cursor] <==> w.lost == {}
  {
    SurvivingLength(w.ring.history, w.lost, w.log.cursor);
    if w.lost == {} {
      SurvivingKeep(w.ring.history, {}, 0, w.log.cursor);
    } else {
      var i :| i in w.lost;
    }
  }

  // ---- when attaches are orderly ----

  /** The route's cursor is set to a point behind what has arrived since the gap was found. */
  ghost predicate SetsBack(w: World, a: Act) {
    a.Settle? && Can(w, a) && a.applied && w.daemon.settling[0] < QueueEnd(w.log.cursor, w.daemon.queue)
  }

  /** A resync replaces a stream that has not been evicted. */
  predicate Replaces(w: World, a: Act) {
    a.Land? && Can(w, a) && w.daemon.live
  }

  ghost predicate CarefulRun(w: World, acts: seq<Act>) {
    acts != [] ==>
      var before, a := acts[..|acts| - 1], acts[|acts| - 1];
      && CarefulRun(w, before)
      && (After(w, before).Some? ==> !SetsBack(After(w, before).value, a) && !Replaces(After(w, before).value, a))
  }

  /**
   The route's cursor has reached what has arrived, and while no stream can read the ring has
   moved on past all that was handed over.
   */
  ghost predicate KeptUp(w: World) {
    w.daemon.Up? ==>
      && QueueEnd(w.log.cursor, w.daemon.queue) <= w.daemon.got && w.daemon.stragglers == []
      && (!Reading(w.ring, w.daemon) ==> HandedEnd(w) <= w.ring.Tail())
  }

  lemma CarefulIsOrderly(w: World, a: Act)
    requires Inv(w) && KeptUp(w) && Can(w, a) && !Replaces(w, a)
    ensures Orderly(w, a)
  {
    if a.Reconnect? {
      AnswerIs(w.ring, P.FromCursor(w.daemon.got));
    }
  }

  lemma PushKeepsUp(w: World, p: R.Push)
    requires Inv(w) && KeptUp(w)
    ensures KeptUp(Step(w, Push(p)))
  {
    R.ApplyKeepsValid(w.ring, p);
    if w.daemon.Up? {
      FramesBound(w.ring.history, QueueEnd(w.log.cursor, w.daemon.queue), Flight(w.daemon), Bound(w.ring, w.daemon));
    }
  }

  lemma ReceiveKeepsUp(w: World)
    requires Inv(w) && KeptUp(w) && Can(w, Receive)
    ensures KeptUp(Step(w, Receive))
  {
    ArrivedIs(w.ring, w.log, w.daemon);
    var all, rest := Flight(w.daemon), Flight(Drained(w.daemon));
    assert all[|all| - 1] == if rest == [] then w.daemon.wire[0] else rest[|rest| - 1];
  }

  lemma LandKeepsUp(w: World)
    requires Inv(w) && KeptUp(w) && Can(w, Land) && !Replaces(w, Land)
    ensures KeptUp(Step(w, Land))
  {
    CarefulIsOrderly(w, Land);
    LandKeepsInv(w);
    assert Pending(w.daemon) == [];
  }

  lemma ReconnectKeepsUp(w: World, kept: nat)
    requires Inv(w) && KeptUp(w) && Can(w, Reconnect(kept))
    ensures KeptUp(Step(w, Reconnect(kept)))
  {
    CarefulIsOrderly(w, Reconnect(kept));
    ReconnectKeepsInv(w, kept);
    AnswerIs(w.ring, P.FromCursor(w.daemon.got));
  }

  lemma AdoptKeepsUp(w: World)
    requires Inv(w) && Can(w, Adopt)
    ensures KeptUp(Step(w, Adopt))
  {
    AnswerIs(w.ring, P.FromCursor(w.log.cursor));
  }

  lemma EmitKeepsUp(w: World)
    requires Inv(w) && KeptUp(w) && Can(w, Emit)
    ensures KeptUp(Step(w, Emit))
  {
    ReadIsPiece(w);
    assert Reading(w.ring, ReadOn(w.ring, w.daemon));
  }

  lemma EnqueueKeepsUp(w: World)
    requires Inv(w) && KeptUp(w) && Can(w, Enqueue)
    ensures KeptUp(Step(w, Enqueue))
  {
    EnqueueKeepsInv(w);
  }

  lemma ServeKeepsUp(w: World)
    requires Inv(w) && KeptUp(w) && Can(w, Serve)
    ensures KeptUp(Step(w, Serve))
  {
    ServedKeeps(w.ring, w.daemon);
  }

  lemma NoticesKeepUp(w: World, a: Act)
    requires Inv(w) && KeptUp(w) && Can(w, a) && !SetsBack(w, a)
    requires a.Evict? || a.Lapse? || a.Hear? || a.Ask? || a.Settle? || a.Finish?
    ensures KeptUp(Step(w, a))
  {
  }

  lemma CommitKeepsUp(w: World, n: nat)
    requires Inv(w) && KeptUp(w) && Can(w, Commit(n))
    ensures KeptUp(Step(w, Commit(n)))
  {
    CommitKeepsInv(w, n);
    if w.daemon.Up? {
      assert Flight(Step(w, Commit(n)).daemon) == Flight(w.daemon);
    }
  }

  lemma FailBatchKeepsUp(w: World, n: nat)
    requires Inv(w) && KeptUp(w) && Can(w, FailBatch(n))
    ensures KeptUp(Step(w, FailBatch(n)))
  {
    FailBatchKeepsInv(w, n);
    if w.daemon.Up? {
      assert Flight(Step(w, FailBatch(n)).daemon) == Flight(w.daemon);
    }
  }

  lemma StepKeepsUp(w: World, a: Act)
    requires Inv(w) && KeptUp(w) && Can(w, a) && !SetsBack(w, a) && !Replaces(w, a)
    ensures KeptUp(Step(w, a))
  {
    match a {
      case Push(p) => PushKeepsUp(w, p);
      case Emit => EmitKeepsUp(w);
      case Enqueue => EnqueueKeepsUp(w);
      case Receive => ReceiveKeepsUp(w);
      case Commit(n) => CommitKeepsUp(w, n);
      case FailBatch(n) => FailBatchKeepsUp(w, n);
      case Serve => ServeKeepsUp(w);
      case Land => LandKeepsUp(w);
      case Reconnect(kept) => ReconnectKeepsUp(w, kept);
      case Adopt => AdoptKeepsUp(w);
      case Straggle(_) =>
      case Crash =>
      case _ => NoticesKeepUp(w, a);
    }
  }

  /**
   As long as no resync replaces a stream that has not been evicted, and the route's cursor is
   not set back, every attach is orderly: a resync after a genuine eviction repeats nothing,
   whatever is still on the way, for the ring is then past all that was sent.
   */
  lemma {:induction false} CarefulRunsAreOrderly(cap: nat, acts: seq<Act>)
    requires After(Init(cap), acts).Some? && CarefulRun(Init(cap), acts)
    ensures OrderlyRun(Init(cap), acts)
    ensures Inv(After(Init(cap), acts).value) && KeptUp(After(Init(cap), acts).value)
  {
    if acts == [] {
      InitIsOk(cap);
    } else {
      var before, a := acts[..|acts| - 1], acts[|acts| - 1];
      CarefulRunsAreOrderly(cap, before);
      var w := After(Init(cap), before).value;
      CarefulIsOrderly(w, a);
      StepKeepsInv(w, a);
      StepKeepsUp(w, a);
    }
  }
}
