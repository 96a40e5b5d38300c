/**
 Runs on which nothing is lost, and what a failed batch does. Without failed batches and
 gaps, cold history, queue and flight together are the output; a failed batch is mended
 by a restart, and by nothing once another batch has been committed.
 */
module ColdWhole {
  import opened Base
  import P = StreamProtocol
  import opened EventStore
  import opened ColdLog
  import opened ColdStitch
  import opened ColdOrder
  import R = RingHistory

  // ---- nothing lost ----

  ghost predicate TightFrames(from: nat, fs: seq<P.Frame>, to: nat)
    decreases |fs|
  {
    if fs == [] then from == to else Begin(fs[0]) == from && TightFrames(fs[0].headCursor, fs[1..], to)
  }

  lemma {:induction false} TightFramesAppend(from: nat, fs: seq<P.Frame>, to: nat, f: P.Frame)
    requires TightFrames(from, fs, to) && Begin(f) == to
    ensures TightFrames(from, fs + [f], f.headCursor)
    decreases |fs|
  {
    if fs != [] {
      assert (fs + [f])[0] == fs[0] && (fs + [f])[1..] == fs[1..] + [f];
      TightFramesAppend(fs[0].headCursor, fs[1..], to, f);
    }
  }

  lemma {:induction false} TightFramesEnd(h: seq<byte>, from: nat, fs: seq<P.Frame>, to: nat, to': nat)
    requires FramesOk(h, from, fs, to') && TightFrames(from, fs, to) && to <= |h|
    ensures FramesOk(h, from, fs, to) && from <= to
    decreases |fs|
  {
    if fs != [] {
      TightFramesEnd(h, fs[0].headCursor, fs[1..], to, to');
    }
  }

  /** An evicted stream is not resynced without a gap: its requests are all for less than the ring still holds. */
  ghost predicate EvictedBehind(ring: R.Window, d: Daemon) {
    d.Up? ==>
      && d.settling == [] && d.starting == None && d.stragglers == [] && d.leaving == []
      && if d.live then d.evictions == 0 && d.notices == 0 && d.asks == []
         else d.sent < ring.Tail() && forall m :: m in d.asks ==> m.FromCursor? && m.from <= d.sent
  }

  ghost predicate TightDaemon(l: Log, d: Daemon) {
    && (!d.Down? ==> Tight(l.cursor, d.queue, QueueEnd(l.cursor, d.queue)))
    && (d.Up? ==> TightFrames(d.got, Flight(d), d.sent) && d.got == QueueEnd(l.cursor, d.queue))
  }

  /** Nothing is lost, and what is queued and on the way continues the log without a hole. */
  ghost predicate Clean(w: World) {
    w.lost == {} && TightDaemon(w.log, w.daemon) && EvictedBehind(w.ring, w.daemon)
  }

  /** No batch fails and no attach is answered with BUFFER_GAP. */
  ghost predicate Faultless(w: World, a: Act) {
    match a
    case FailBatch(_) => false
    case Adopt => !Answer(w.ring, P.FromCursor(w.log.cursor)).BufferGap?
    case Reconnect(_) => w.daemon.Up? ==> !Answer(w.ring, P.FromCursor(w.daemon.got)).BufferGap?
    case Serve => w.daemon.Up? && w.daemon.asks != [] ==> !Answer(w.ring, w.daemon.asks[0]).BufferGap?
    case _ => true
  }

  ghost predicate FaultlessRun(w: World, acts: seq<Act>) {
    acts != [] ==>
      && FaultlessRun(w, acts[..|acts| - 1])
      && (After(w, acts[..|acts| - 1]).Some? ==> Faultless(After(w, acts[..|acts| - 1]).value, acts[|acts| - 1]))
  }

  /** Without a gap no resync is ever served: one is asked for only after an eviction, and that leaves a gap. */
  lemma NoResyncWithoutGap(w: World)
    requires Sound(w) && Clean(w)
    ensures !Can(w, Land) && (Can(w, Serve) ==> !Faultless(w, Serve))
  {
    if Can(w, Serve) {
      assert w.daemon.asks[0] in w.daemon.asks;
      assert Answer(w.ring, w.daemon.asks[0]) == P.BufferGap(w.ring.Tail());
    }
  }

  lemma CommitKeepsClean(w: World, n: nat)
    requires Inv(w) && Clean(w) && Can(w, Commit(n))
    ensures Clean(Step(w, Commit(n)))
  {
    CommitKeepsInv(w, n);
    TightBatch(w.ring.history, w.log, w.daemon.queue, n, QueueEnd(w.log.cursor, w.daemon.queue), w.daemon.lastSeq);
  }

  /** The frames in flight end where the stream stands, or stood. */
  lemma FlightEnds(w: World)
    requires Inv(w) && Clean(w) && w.daemon.Up?
    ensures var d := w.daemon; FramesOk(w.ring.history, d.got, Flight(d), d.sent) && d.got <= d.sent
  {
    var h, d := w.ring.history, w.daemon;
    TightFramesEnd(h, d.got, Flight(d), d.sent, Bound(w.ring, d));
  }

  /** Without a gap only a connection whose stream still runs is replaced. */
  lemma OnlyLiveReconnects(ring: R.Window, d: Daemon)
    requires d.Up? && EvictedBehind(ring, d) && d.got <= d.sent && ring.Tail() <= d.got
    ensures d.live && d.asks == [] && d.settling == [] && d.notices == 0
  {
  }

  lemma ReconnectIsClean(ring: R.Window, l: Log, d: Daemon)
    requires d.Up? && TightDaemon(l, d) && ring.Tail() <= d.got <= ring.Head()
    requires d.live && d.asks == [] && d.settling == [] && d.notices == 0
    ensures TightDaemon(l, Reconnected(ring, d, 0)) && EvictedBehind(ring, Reconnected(ring, d, 0))
  {
    ReconnectedIs(ring, d, 0);
    assert d.asks[|d.asks| - 0..] == [];
  }

  lemma ReconnectKeepsClean(w: World, kept: nat)
    requires Inv(w) && Clean(w) && Can(w, Reconnect(kept)) && Faultless(w, Reconnect(kept))
    ensures Clean(Step(w, Reconnect(kept))) && Orderly(w, Reconnect(kept))
  {
    FlightEnds(w);
    AnswerIs(w.ring, P.FromCursor(w.daemon.got));
    OnlyLiveReconnects(w.ring, w.daemon);
    ReconnectIsClean(w.ring, w.log, w.daemon);
  }

  lemma ReadOnIsClean(ring: R.Window, l: Log, d: Daemon)
    requires d.Up? && d.live && d.offering == None && TightDaemon(l, d) && EvictedBehind(ring, d)
    requires var f := ReadOn(ring, d).offering.value; Begin(f) == d.sent
    ensures TightDaemon(l, ReadOn(ring, d)) && EvictedBehind(ring, ReadOn(ring, d))
  {
    var f := ReadOn(ring, d).offering.value;
    TightFramesAppend(d.got, Flight(d), d.sent, f);
    assert Flight(ReadOn(ring, d)) == Flight(d) + [f];
  }

  lemma EmitKeepsClean(w: World)
    requires Inv(w) && Clean(w) && Can(w, Emit)
    ensures Clean(Step(w, Emit))
  {
    ReadIsPiece(w);
    ReadOnIsClean(w.ring, w.log, w.daemon);
  }

  lemma ReceiveKeepsClean(w: World)
    requires Inv(w) && Clean(w) && Can(w, Receive)
    ensures Clean(Step(w, Receive))
  {
    ArrivedIs(w.ring, w.log, w.daemon);
    var d, f := w.daemon, w.daemon.wire[0];
    assert Flight(d)[0] == f && Flight(d)[1..] == Flight(Drained(d));
    TightAppend(w.log.cursor, d.queue, d.got, Event(d.lastSeq + 1, f.data, f.headCursor));
  }

  lemma NoticesKeepClean(w: World, a: Act)
    requires Inv(w) && Clean(w) && Can(w, a) && (a.Evict? || a.Hear? || a.Ask? || a.Finish?)
    ensures Clean(Step(w, a))
  {
    if a.Ask? {
      FlightEnds(w);
    }
  }

  lemma FaultlessKeepsClean(w: World, a: Act)
    requires Inv(w) && Clean(w) && Can(w, a) && Faultless(w, a)
    ensures Clean(Step(w, a)) && Orderly(w, a)
  {
    match a {
      case Push(p) => R.ApplyKeepsValid(w.ring, p);
      case Emit => EmitKeepsClean(w);
      case Enqueue => EnqueueKeepsInv(w);
      case Receive => ReceiveKeepsClean(w);
      case Serve => NoResyncWithoutGap(w);
      case Land => NoResyncWithoutGap(w);
      case Reconnect(kept) => ReconnectKeepsClean(w, kept);
      case Commit(n) => CommitKeepsClean(w, n);
      case Adopt => AnswerIs(w.ring, P.FromCursor(w.log.cursor));
      case Straggle(_) =>
      case Lapse(_) =>
      case Settle(_) =>
      case FailBatch(_) =>
      case Crash =>
      case _ => NoticesKeepClean(w, a);
    }
  }

  ghost function FrameBytes(fs: seq<P.Frame>): seq<byte> {
    if fs == [] then [] else fs[0].data + FrameBytes(fs[1..])
  }

  lemma {:induction false} TightFrameBytes(h: seq<byte>, from: nat, fs: seq<P.Frame>, to: nat)
    requires FramesOk(h, from, fs, to) && TightFrames(from, fs, to)
    ensures from <= to <= |h| && FrameBytes(fs) == h[from..to]
    decreases |fs|
  {
    if fs != [] {
      TightFrameBytes(h, fs[0].headCursor, fs[1..], to);
      assert h[from..to] == h[from..fs[0].headCursor] + h[fs[0].headCursor..to];
    }
  }

  lemma Pieces(h: seq<byte>, a: nat, b: nat, c: nat)
    requires a <= b <= c <= |h|
    ensures h[..a] + h[a..b] + h[b..c] == h[..c]
  {
  }

  /** Cold history, queued events and frames in flight make up the output with no byte lost or repeated. */
  lemma PipelineIsWhole(w: World)
    requires Inv(w) && Clean(w) && w.daemon.Up?
    ensures Cold(w.log) + Bytes(w.daemon.queue) + FrameBytes(Flight(w.daemon)) == w.ring.history[..w.daemon.sent]
  {
    var h, d := w.ring.history, w.daemon;
    ExactIffNothingLost(w);
    TightBytes(h, w.log.cursor, MaxSeq(w.log.rows), d.queue, d.got, d.lastSeq);
    FlightEnds(w);
    TightFrameBytes(h, d.got, Flight(d), d.sent);
    Pieces(h, w.log.cursor, d.got, d.sent);
  }

  lemma {:induction false} FaultlessRunsAreClean(cap: nat, acts: seq<Act>)
    requires After(Init(cap), acts).Some? && FaultlessRun(Init(cap), acts)
    ensures Inv(After(Init(cap), acts).value) && Clean(After(Init(cap), acts).value)
  {
    if acts == [] {
      InitIsOk(cap);
    } else {
      var before := acts[..|acts| - 1];
      FaultlessRunsAreClean(cap, before);
      FaultlessKeepsClean(After(Init(cap), before).value, acts[|acts| - 1]);
      StepKeepsInv(After(Init(cap), before).value, acts[|acts| - 1]);
    }
  }

  /**
   Across any number of crashes, restarts, evictions and reconnects in which no batch fails
   and no attach finds a gap, the stored events are exactly the output up to the backend
   cursor, and together with what is queued and in flight exactly the output up to where the
   stream stands; once those are drained at the head, all of it is stored.
   */
  lemma ResumesWithNothingLost(cap: nat, acts: seq<Act>)
    requires After(Init(cap), acts).Some? && FaultlessRun(Init(cap), acts)
    ensures var w := After(Init(cap), acts).value;
            && w.log.cursor <= |w.ring.history|
            && Cold(w.log) == w.ring.history[..w.log.cursor]
            && (w.daemon.Up? ==>
                  && w.daemon.sent <= |w.ring.history|
                  && Cold(w.log) + Bytes(w.daemon.queue) + FrameBytes(Flight(w.daemon))
                     == w.ring.history[..w.daemon.sent]
                  && (w.daemon.queue == [] && Flight(w.daemon) == [] && w.daemon.sent == w.ring.Head() ==>
                        Cold(w.log) == w.ring.history))
  {
    FaultlessRunsAreClean(cap, acts);
    var w := After(Init(cap), acts).value;
    ExactIffNothingLost(w);
    if w.daemon.Up? {
      PipelineIsWhole(w);
    }
  }

  // ---- failed batches ----

  /** What is not running loses nothing, and without a gap the next adopt starts at the backend cursor. */
  lemma AdoptsWhereItStopped(w: World)
    requires w.ring.Valid() && w.log.cursor <= w.ring.Head() && w.lost == {} && w.daemon.Down?
    ensures Clean(w)
    ensures w.ring.Tail() <= w.log.cursor ==>
              var d := Step(w, Adopt).daemon; d.Up? && d.live && d.sent == w.log.cursor && d.queue == []
  {
    AnswerIs(w.ring, P.FromCursor(w.log.cursor));
  }

  lemma FailedThenDown(w: World, n: nat)
    requires Can(w, FailBatch(n))
    ensures Step(Step(w, FailBatch(n)), Crash) == w.(daemon := Down)
  {
  }

  /**
   A failed batch does no harm if the daemon stops before it commits another: the next adopt
   fetches its output again.
   */
  lemma FailedBatchThenCrash(w: World, n: nat)
    requires Inv(w) && Clean(w) && Can(w, FailBatch(n))
    ensures var down := Step(Step(w, FailBatch(n)), Crash);
            && Clean(down)
            && (w.ring.Tail() <= w.log.cursor ==>
                  var d := Step(down, Adopt).daemon; d.Up? && d.live && d.sent == w.log.cursor && d.queue == [])
  {
    FailedThenDown(w, n);
    AdoptsWhereItStopped(w.(daemon := Down));
  }

  /** The stored history is not the output up to the backend cursor. */
  ghost predicate Differs(w: World) {
    w.log.cursor <= |w.ring.history| && Cold(w.log) != w.ring.history[..w.log.cursor]
  }

  lemma {:induction false} LostStays(w: World, acts: seq<Act>)
    requires After(w, acts).Some?
    ensures w.lost <= After(w, acts).value.lost
  {
    if acts != [] {
      LostStays(w, acts[..|acts| - 1]);
    }
  }

  /** Once output is lost, the stored history differs from it after every continuation: nothing repairs it. */
  lemma LostForGood(w: World, acts: seq<Act>)
    requires Inv(w) && w.lost != {} && After(w, acts).Some? && OrderlyRun(w, acts)
    ensures Differs(After(w, acts).value)
  {
    OrderlyRunsKeepInv(w, acts);
    LostStays(w, acts);
    ExactIffNothingLost(After(w, acts).value);
  }

  /** A batch past a hole loses what the hole covers. */
  lemma HoleIsLost(w: World, m: nat)
    requires Inv(w) && Can(w, Commit(m)) && w.log.cursor < w.daemon.queue[0].Begin()
    ensures Inv(Step(w, Commit(m))) && w.log.cursor in Step(w, Commit(m)).lost
  {
    CommitKeepsInv(w, m);
    assert w.daemon.queue[..m][0] == w.daemon.queue[0];
    assert w.log.cursor in Range(w.log.cursor, w.daemon.queue[0].Begin());
  }

  /**
   If it goes on to commit anything, the failed batch's output is lost, and the stored history
   is wrong from then on, whatever follows.
   */
  lemma FailedBatchThenCommit(w: World, n: nat, m: nat)
    requires Inv(w) && Clean(w) && Can(w, FailBatch(n)) && Can(Step(w, FailBatch(n)), Commit(m))
    ensures var w' := Step(Step(w, FailBatch(n)), Commit(m));
            && w.log.cursor in w'.lost
            && Differs(w')
            && forall acts | After(w', acts).Some? && OrderlyRun(w', acts) :: Differs(After(w', acts).value)
  {
    var d := w.daemon;
    EventsDrop(w.ring.history, w.log.cursor, MaxSeq(w.log.rows), d.queue, n,
               QueueEnd(w.log.cursor, d.queue), d.lastSeq);
    FailBatchKeepsInv(w, n);
    HoleIsLost(Step(w, FailBatch(n)), m);
    var w' := Step(Step(w, FailBatch(n)), Commit(m));
    LostForGood(w', []);
    forall acts | After(w', acts).Some? && OrderlyRun(w', acts)
      ensures Differs(After(w', acts).value)
    {
      LostForGood(w', acts);
    }
  }
}
