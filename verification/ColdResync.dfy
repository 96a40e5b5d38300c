/**
 The condition under which `ColdOrder.StoredIsHistoryLessLost` holds is exact: an attach
 that is not orderly can put an event out of place, and then output is stored twice or
 after output that followed it. Two runs lead there: a notice that waited while the
 connection was replaced, and a route's cursor set back behind what had arrived.
 */
module ColdResync {
  import opened Base
  import P = StreamProtocol
  import opened EventStore
  import opened ColdLog
  import opened ColdStitch
  import opened ColdOrder
  import opened ColdExcess
  import R = RingHistory

  /** Some queued event begins before the one ahead of it, or the log, ends. */
  ghost predicate OutOfOrder(w: World) {
    !w.daemon.Down? && SomeOverlap(w.log.cursor, w.daemon.queue)
  }

  /** What is stored is the output up to the cursor, less what was passed over. */
  ghost predicate StoredInOrder(w: World) {
    && w.log.cursor <= |w.ring.history|
    && Cold(w.log) == Surviving(w.ring.history, w.lost, w.log.cursor)
  }

  predicate NoAttach(acts: seq<Act>) {
    forall i :: 0 <= i < |acts| ==> !acts[i].Land? && !acts[i].Reconnect?
  }

  // ---- an orderly attach ----

  lemma {:induction false} EventsInPlace(h: seq<byte>, from: nat, after: nat, es: seq<Event>, to: nat, last: nat,
                                         i: nat)
    requires EventsOk(h, from, after, es, to, last) && i < |es|
    ensures !Overlaps(from, es, i)
    decreases |es|
  {
    if i > 0 {
      EventsInPlace(h, es[0].headCursor, es[0].seqNo, es[1..], to, last, i - 1);
    }
  }

  lemma OrderedIsNotOutOfOrder(w: World)
    requires Inv(w)
    ensures !OutOfOrder(w)
  {
    if !w.daemon.Down? {
      var d := w.daemon;
      forall i | 0 <= i < |d.queue|
        ensures !Overlaps(w.log.cursor, d.queue, i)
      {
        EventsInPlace(w.ring.history, w.log.cursor, MaxSeq(w.log.rows), d.queue,
                      QueueEnd(w.log.cursor, d.queue), d.lastSeq, i);
      }
    }
  }

  lemma {:induction false} NoAttachIsOrderly(w: World, acts: seq<Act>)
    requires NoAttach(acts)
    ensures OrderlyRun(w, acts)
  {
    if acts != [] {
      NoAttachIsOrderly(w, acts[..|acts| - 1]);
    }
  }

  lemma OrderlyAttachIsSafe(w: World, a: Act, acts: seq<Act>, w': World)
    requires Inv(w) && Can(w, a) && Orderly(w, a)
    requires NoAttach(acts) && After(Step(w, a), acts) == Some(w')
    ensures !OutOfOrder(w') && StoredInOrder(w')
  {
    StepKeepsInv(w, a);
    NoAttachIsOrderly(Step(w, a), acts);
    OrderlyRunsKeepInv(Step(w, a), acts);
    OrderedIsNotOutOfOrder(w');
  }

  // ---- an attach that is not ----

  /** `b` is `a` with all that was on the way received. */
  ghost predicate AllArrived(a: World, b: World) {
    && a.daemon.Up? && b.daemon.Up?
    && b.ring == a.ring && b.log == a.log && b.daemon.wire == []
    && b.daemon.live == a.daemon.live && b.daemon.sent == a.daemon.sent && b.daemon.offering == a.daemon.offering
    && b.daemon.stragglers == a.daemon.stragglers && b.daemon.persistFrom == a.daemon.persistFrom
    && QueueEnd(b.log.cursor, b.daemon.queue) == FramesEnd(QueueEnd(a.log.cursor, a.daemon.queue), a.daemon.wire)
  }

  lemma ReceiveFirst(w: World)
    requires w.daemon.Up? && w.daemon.wire != [] && w.daemon.persistFrom < w.daemon.wire[0].headCursor
    ensures After(w, [Receive]) == Some(Step(w, Receive))
    ensures var d, d', f := w.daemon, Step(w, Receive).daemon, w.daemon.wire[0];
            && Step(w, Receive) == w.(daemon := d') && d'.Up? && d'.wire == d.wire[1..]
            && d'.live == d.live && d'.sent == d.sent && d'.offering == d.offering && d'.stragglers == d.stragglers
            && d'.persistFrom == d.persistFrom && QueueEnd(w.log.cursor, d'.queue) == f.headCursor
  {
    AfterOne(w, Receive);
  }

  lemma {:induction false} ReceiveAll(w: World) returns (acts: seq<Act>, w': World)
    requires w.daemon.Up?
    requires forall i :: 0 <= i < |w.daemon.wire| ==> w.daemon.persistFrom < w.daemon.wire[i].headCursor
    ensures After(w, acts) == Some(w') && NoAttach(acts) && AllArrived(w, w')
    decreases if w.daemon.Up? then |w.daemon.wire| else 0
  {
    if w.daemon.wire == [] {
      acts, w' := [], w;
    } else {
      var m := Step(w, Receive);
      ReceiveFirst(w);
      var rest: seq<Act>;
      rest, w' := ReceiveAll(m);
      AfterConcat(w, [Receive], rest);
      acts := [Receive] + rest;
    }
  }

  /** A frame that begins before the queue ends arrives. */
  lemma ArrivesLate(w: World, f: P.Frame)
    requires w.daemon.Up? && w.daemon.wire == [f] && w.daemon.persistFrom < f.headCursor
    requires Begin(f) < QueueEnd(w.log.cursor, w.daemon.queue)
    ensures After(w, [Receive]) == Some(Step(w, Receive)) && OutOfOrder(Step(w, Receive))
  {
    AfterOne(w, Receive);
    assert Overlaps(w.log.cursor, Step(w, Receive).daemon.queue, |w.daemon.queue|);
  }

  /** The stream reads at its cursor and the frame is on its way, behind nothing else. */
  lemma SendsNext(w: World) returns (acts: seq<Act>, w': World, f: P.Frame)
    requires w.ring.Valid() && w.daemon.Up? && w.daemon.live && w.daemon.offering == None && w.daemon.wire == []
    requires w.ring.Tail() <= w.daemon.sent < w.ring.Head()
    ensures After(w, acts) == Some(w') && NoAttach(acts)
    ensures Begin(f) == w.daemon.sent < f.headCursor
    ensures w' == w.(daemon := w.daemon.(sent := f.headCursor, wire := [f]))
  {
    var h := w.ring.history;
    assert h[w.daemon.sent..Min(|h|, w.daemon.sent + P.STREAM_CHUNK)] != [];
    var m := Step(w, Emit);
    AfterOne(w, Emit);
    AfterOne(m, Enqueue);
    AfterConcat(w, [Emit], [Enqueue]);
    acts, w', f := [Emit] + [Enqueue], Step(m, Enqueue), m.daemon.offering.value;
    assert [] + [f] == [f];
  }

  lemma {:induction false} FramesAreLater(h: seq<byte>, from: nat, fs: seq<P.Frame>, to: nat, i: nat)
    requires FramesOk(h, from, fs, to) && i < |fs|
    ensures from <= Begin(fs[i]) < fs[i].headCursor
    decreases |fs|
  {
    if i > 0 {
      FramesAreLater(h, fs[0].headCursor, fs[1..], to, i - 1);
    }
  }

  /** What was handed over is all past what was cold history when the daemon started. */
  lemma HandedIsNew(w: World)
    requires Inv(w) && w.daemon.Up?
    ensures forall i :: 0 <= i < |Flight(w.daemon)| ==> w.daemon.persistFrom < Flight(w.daemon)[i].headCursor
    ensures QueueEnd(w.log.cursor, w.daemon.queue) <= HandedEnd(w) <= w.ring.Head()
  {
    var h, d := w.ring.history, w.daemon;
    var end, to := QueueEnd(w.log.cursor, d.queue), Bound(w.ring, d);
    EventsEnd(h, w.log.cursor, MaxSeq(w.log.rows), d.queue, end, d.lastSeq);
    FramesBound(h, end, Flight(d), to);
    forall i | 0 <= i < |Flight(d)|
      ensures d.persistFrom < Flight(d)[i].headCursor
    {
      FramesAreLater(h, end, Flight(d), to, i);
    }
  }

  /** A stream is about to start at `at` and can read. */
  predicate LandsAt(w: World, at: nat) {
    Can(w, Land) && w.daemon.starting == Some(at) && w.ring.Tail() <= at
  }

  /** The frame the replaced stream was offering, if any, gets through behind what is on the way. */
  lemma OfferedGetsThrough(w: World, at: nat) returns (acts: seq<Act>, w': World)
    requires Inv(w) && LandsAt(w, at)
    ensures After(Step(w, Land), acts) == Some(w') && NoAttach(acts) && w' == w.(daemon := w'.daemon)
    ensures var d := Landed(w.daemon);
            w'.daemon == d.(wire := Flight(w.daemon), stragglers := [], leaving := Leaving(w'.daemon))
  {
    var one := Step(w, Land);
    if Pending(w.daemon) != [] {
      AfterOne(one, Straggle(true));
      acts, w' := [Straggle(true)], Step(one, Straggle(true));
      assert Pending(w.daemon) == [Pending(w.daemon)[0]];
    } else {
      acts, w' := [], one;
    }
    assert w'.daemon.wire == Flight(w.daemon) && w'.daemon.stragglers == [];
  }

  function Leaving(d: Daemon): seq<nat> {
    if d.Up? then d.leaving else []
  }

  /** A stream that stands before the end of the queue sends, and its frame arrives. */
  lemma SendsLate(w: World) returns (acts: seq<Act>, w': World)
    requires w.ring.Valid() && w.daemon.Up? && w.daemon.live && w.daemon.offering == None && w.daemon.wire == []
    requires w.ring.Tail() <= w.daemon.sent < w.ring.Head() && w.daemon.persistFrom <= w.daemon.sent
    requires w.daemon.sent < QueueEnd(w.log.cursor, w.daemon.queue)
    ensures After(w, acts) == Some(w') && NoAttach(acts) && OutOfOrder(w')
  {
    var first, m, f := SendsNext(w);
    ArrivesLate(m, f);
    AfterConcat(w, first, [Receive]);
    acts, w' := first + [Receive], Step(m, Receive);
  }

  /** What was handed over has arrived, and the new stream stands where it starts. */
  lemma HandedArrives(w: World, at: nat) returns (acts: seq<Act>, w': World)
    requires Inv(w) && LandsAt(w, at)
    ensures After(Step(w, Land), acts) == Some(w') && NoAttach(acts) && w'.ring == w.ring && w'.daemon.Up?
    ensures w'.daemon.live && w'.daemon.offering == None && w'.daemon.wire == [] && w'.daemon.sent == at
    ensures w'.daemon.persistFrom == w.daemon.persistFrom
    ensures QueueEnd(w'.log.cursor, w'.daemon.queue) == HandedEnd(w)
  {
    HandedIsNew(w);
    var first, m := OfferedGetsThrough(w, at);
    var second: seq<Act>;
    second, w' := ReceiveAll(m);
    AfterConcat(Step(w, Land), first, second);
    acts := first + second;
  }

  /** The new stream starts before the end of what was handed over, and sends that part again. */
  lemma LandsTooEarly(w: World, at: nat) returns (acts: seq<Act>, w': World)
    requires Inv(w) && LandsAt(w, at) && at < HandedEnd(w)
    ensures After(Step(w, Land), acts) == Some(w') && NoAttach(acts) && OutOfOrder(w')
  {
    HandedIsNew(w);
    var first, m := HandedArrives(w, at);
    var rest: seq<Act>;
    rest, w' := SendsLate(m);
    AfterConcat(Step(w, Land), first, rest);
    acts := first + rest;
  }

  /** The stream on the new connection starts before the end of what had arrived. */
  lemma ReconnectsTooEarly(w: World, kept: nat) returns (acts: seq<Act>, w': World)
    requires Inv(w) && Can(w, Reconnect(kept)) && !Orderly(w, Reconnect(kept))
    ensures After(Step(w, Reconnect(kept)), acts) == Some(w') && NoAttach(acts) && OutOfOrder(w')
  {
    HandedIsNew(w);
    ReconnectedIs(w.ring, w.daemon, kept);
    acts, w' := SendsLate(Step(w, Reconnect(kept)));
  }

  /** There is output past `sent`, pushed if need be without moving the tail past it. */
  lemma MoreOutput(w: World) returns (acts: seq<Act>, w': World)
    requires w.ring.Valid() && w.ring.cap > 0 && w.daemon.Up? && w.ring.Tail() <= w.daemon.sent <= w.ring.Head()
    ensures After(w, acts) == Some(w') && NoAttach(acts) && w' == w.(ring := w'.ring)
    ensures w'.ring.Valid() && w'.ring.Tail() <= w.daemon.sent < w'.ring.Head()
  {
    if w.daemon.sent < w.ring.Head() {
      acts, w' := [], w;
    } else {
      var p := R.Stored([0]);
      R.ApplyKeepsValid(w.ring, p);
      AfterOne(w, Push(p));
      acts, w' := [Push(p)], Step(w, Push(p));
    }
  }

  /** All that was on the way arrives, and then the new stream's first frame. */
  lemma NewFrameArrives(w: World, end: nat) returns (acts: seq<Act>, w': World)
    requires w.ring.Valid() && w.ring.cap > 0 && w.daemon.Up? && w.daemon.live && w.daemon.offering == None
    requires w.ring.Tail() <= w.daemon.sent <= w.ring.Head()
    requires w.daemon.persistFrom <= w.daemon.sent && end <= w.daemon.sent
    requires forall i :: 0 <= i < |w.daemon.wire| ==> w.daemon.persistFrom < w.daemon.wire[i].headCursor
    ensures After(w, acts) == Some(w') && NoAttach(acts)
    ensures w'.daemon.Up? && w'.daemon.wire == [] && w'.daemon.stragglers == w.daemon.stragglers
    ensures w'.daemon.persistFrom == w.daemon.persistFrom && end < QueueEnd(w'.log.cursor, w'.daemon.queue)
  {
    var first, one := ReceiveAll(w);
    var second, two := MoreOutput(one);
    var third, three, g := SendsNext(two);
    var fourth, four := ReceiveAll(three);
    AfterConcat(w, first, second);
    AfterConcat(w, first + second, third);
    AfterConcat(w, first + second + third, fourth);
    acts, w' := first + second + third + fourth, four;
  }

  /** The last straggler gets through behind what has arrived. */
  lemma StragglerArrives(w: World, f: P.Frame) returns (acts: seq<Act>, w': World)
    requires w.daemon.Up? && w.daemon.stragglers == [f] && w.daemon.wire == [] && w.daemon.persistFrom < f.headCursor
    requires Begin(f) < QueueEnd(w.log.cursor, w.daemon.queue)
    ensures After(w, acts) == Some(w') && NoAttach(acts) && OutOfOrder(w')
  {
    var m := Step(w, Straggle(true));
    AfterOne(w, Straggle(true));
    assert m.daemon.wire == [f];
    ArrivesLate(m, f);
    AfterConcat(w, [Straggle(true)], [Receive]);
    acts, w' := [Straggle(true)] + [Receive], Step(m, Receive);
  }

  lemma PendingIsNew(w: World)
    requires Inv(w) && w.daemon.Up? && Pending(w.daemon) != []
    ensures var f := Pending(w.daemon)[0];
            && Pending(w.daemon) == [f] && w.ring.cap > 0
            && w.daemon.persistFrom < f.headCursor == HandedEnd(w) && Begin(f) < f.headCursor
    ensures forall i :: 0 <= i < |w.daemon.wire| ==> w.daemon.persistFrom < w.daemon.wire[i].headCursor
  {
    HandedIsNew(w);
    var n := |w.daemon.wire|;
    assert Flight(w.daemon)[n] == Pending(w.daemon)[0];
    assert forall i :: 0 <= i < n ==> Flight(w.daemon)[i] == w.daemon.wire[i];
  }

  /** The frame the replaced stream was offering gets through behind the new stream's first. */
  lemma StragglesIn(w: World, at: nat) returns (acts: seq<Act>, w': World)
    requires Inv(w) && LandsAt(w, at) && Pending(w.daemon) != [] && HandedEnd(w) <= at
    ensures After(Step(w, Land), acts) == Some(w') && NoAttach(acts) && OutOfOrder(w')
  {
    PendingIsNew(w);
    var f := Pending(w.daemon)[0];
    var one := Step(w, Land);
    var first, two := NewFrameArrives(one, f.headCursor);
    assert two.daemon.stragglers == [f];
    var rest: seq<Act>;
    rest, w' := StragglerArrives(two, f);
    AfterConcat(one, first, rest);
    acts := first + rest;
  }

  lemma DisorderlyIsUnsafe(w: World, a: Act) returns (acts: seq<Act>, w': World)
    requires Inv(w) && Can(w, a) && !Orderly(w, a)
    ensures After(Step(w, a), acts) == Some(w') && NoAttach(acts) && OutOfOrder(w')
  {
    if a.Reconnect? {
      acts, w' := ReconnectsTooEarly(w, a.kept);
    } else {
      var at := w.daemon.starting.value;
      if at < HandedEnd(w) {
        acts, w' := LandsTooEarly(w, at);
      } else {
        acts, w' := StragglesIn(w, at);
      }
    }
  }

  /** Once the queue is out of order, the writer has only to commit it. */
  lemma OutOfOrderIsStored(cap: nat, run: seq<Act>, w: World) returns (acts: seq<Act>, w': World)
    requires After(Init(cap), run) == Some(w) && OutOfOrder(w)
    ensures After(w, acts) == Some(w') && NoAttach(acts) && !StoredInOrder(w')
  {
    InitIsOk(cap);
    OrderedIsCounted(Init(cap));
    RunKeepsCounted(Init(cap), run);
    acts, w' := TooMuchIsStored(w);
  }

  lemma OutOfOrderLater(cap: nat, before: seq<Act>, w: World, a: Act, first: seq<Act>, m: World)
    returns (acts: seq<Act>, w': World)
    requires After(Init(cap), before) == Some(w) && Can(w, a)
    requires After(Step(w, a), first) == Some(m) && NoAttach(first) && OutOfOrder(m)
    ensures After(Step(w, a), acts) == Some(w') && NoAttach(acts) && !StoredInOrder(w')
  {
    AfterOne(w, a);
    AfterConcat(Init(cap), before, [a]);
    AfterConcat(Init(cap), before + [a], first);
    var rest: seq<Act>;
    rest, w' := OutOfOrderIsStored(cap, before + [a] + first, m);
    AfterConcat(Step(w, a), first, rest);
    acts := first + rest;
  }

  /**
   Exactly: after an orderly run, whatever follows short of another attach, what is stored is
   the output up to the cursor less what was passed over, if and only if the attach is orderly;
   and likewise no event is out of place in the queue.
   */
  lemma AttachIsSafeIff(cap: nat, before: seq<Act>, w: World, a: Act)
    requires After(Init(cap), before) == Some(w) && OrderlyRun(Init(cap), before) && Can(w, a)
    ensures Orderly(w, a)
            <==> forall acts, w' | NoAttach(acts) && After(Step(w, a), acts) == Some(w') :: StoredInOrder(w')
    ensures Orderly(w, a)
            <==> forall acts, w' | NoAttach(acts) && After(Step(w, a), acts) == Some(w') :: !OutOfOrder(w')
  {
    InitIsOk(cap);
    OrderlyRunsKeepInv(Init(cap), before);
    if Orderly(w, a) {
      forall acts, w' | NoAttach(acts) && After(Step(w, a), acts) == Some(w')
        ensures !OutOfOrder(w') && StoredInOrder(w')
      {
        OrderlyAttachIsSafe(w, a, acts, w');
      }
    } else {
      var first, m := DisorderlyIsUnsafe(w, a);
      var acts, w' := OutOfOrderLater(cap, before, w, a, first, m);
    }
  }

  // ---- runs that store output twice ----

  lemma Next(acts: seq<Act>, w: World, a: Act)
    requires After(Init(1), acts) == Some(w) && Can(w, a)
    ensures After(Init(1), acts + [a]) == Some(Step(w, a))
  {
    AfterOne(w, a);
    AfterConcat(Init(1), acts, [a]);
  }

  /** Two bytes have been output, of which the ring holds the second, and nothing is stored. */
  function With(d: Daemon): World {
    World(R.Window(1, [1, 2], 1), Log(map[], 0), d, {})
  }

  lemma TwoBytes(w: World)
    requires w.ring == R.New(1)
    ensures Step(Step(w, Push(R.Stored([1]))), Push(R.Stored([2]))).ring == R.Window(1, [1, 2], 1)
    ensures Step(Step(w, Push(R.Stored([1]))), Push(R.Stored([2]))) == w.(ring := R.Window(1, [1, 2], 1))
  {
    assert R.Apply(w.ring, R.Stored([1])).history == [1];
  }

  /** A stream that stands before the second byte sends it. */
  lemma SendsTheSecond(acts: seq<Act>, w: World) returns (acts': seq<Act>, w': World)
    requires After(Init(1), acts) == Some(w) && w.ring == R.Window(1, [1, 2], 1)
    requires w.daemon.Up? && w.daemon.live && w.daemon.sent == 1 && w.daemon.offering == None
    ensures After(Init(1), acts') == Some(w')
    ensures w' == w.(daemon := w.daemon.(sent := 2, wire := w.daemon.wire + [P.Frame([2], 2)]))
  {
    assert w.ring.history[1..2] == [2];
    Next(acts, w, Emit);
    acts', w' := acts + [Emit], Step(w, Emit);
    Next(acts', w', Enqueue);
    acts', w' := acts' + [Enqueue], Step(w', Enqueue);
  }

  /** Its frame arrives and is queued. */
  lemma SecondArrives(acts: seq<Act>, w: World) returns (acts': seq<Act>, w': World)
    requires After(Init(1), acts) == Some(w) && w.daemon.Up? && w.daemon.persistFrom == 0
    requires |w.daemon.wire| > 0 && w.daemon.wire[0] == P.Frame([2], 2)
    ensures After(Init(1), acts') == Some(w')
    ensures var d := w.daemon;
            w' == w.(daemon := d.(wire := d.wire[1..], got := 2, lastSeq := d.lastSeq + 1,
                                  queue := d.queue + [Event(d.lastSeq + 1, [2], 2)]))
  {
    Next(acts, w, Receive);
    acts', w' := acts + [Receive], Step(w, Receive);
  }

  /** An adopted stream is lapped before it reads anything, its notice arrives, and the connection is replaced. */
  lemma ReplacedUnderANotice() returns (acts: seq<Act>, w: World)
    ensures After(Init(1), acts) == Some(w)
    ensures w == With(Up(true, 1, None, [], [], [], 0, 1, [], None, [], 0, 0, 0, []))
  {
    MaxIs(map[], 0);
    acts, w := [], Init(1);
    Next(acts, w, Adopt);
    acts, w := acts + [Adopt], Step(w, Adopt);
    assert w == Init(1).(daemon := Up(true, 0, None, [], [], [], 0, 0, [], None, [], 0, 0, 0, []));
    TwoBytes(w);
    Next(acts, w, Push(R.Stored([1])));
    acts, w := acts + [Push(R.Stored([1]))], Step(w, Push(R.Stored([1])));
    Next(acts, w, Push(R.Stored([2])));
    acts, w := acts + [Push(R.Stored([2]))], Step(w, Push(R.Stored([2])));
    acts, w := NoticeOutlivesConnection(acts, w);
  }

  lemma NoticeOutlivesConnection(acts: seq<Act>, w: World) returns (acts': seq<Act>, w': World)
    requires After(Init(1), acts) == Some(w)
    requires w == With(Up(true, 0, None, [], [], [], 0, 0, [], None, [], 0, 0, 0, []))
    ensures After(Init(1), acts') == Some(w')
    ensures w' == With(Up(true, 1, None, [], [], [], 0, 1, [], None, [], 0, 0, 0, []))
  {
    Next(acts, w, Act.Evict);
    acts', w' := acts + [Act.Evict], Step(w, Act.Evict);
    Next(acts', w', Hear);
    acts', w' := acts' + [Hear], Step(w', Hear);
    Next(acts', w', Reconnect(0));
    var asks: seq<P.AttachMode> := w'.daemon.asks[|w'.daemon.asks| - 0..];
    assert asks == [] && [P.FromEarliest] + asks == [P.FromEarliest];
    acts', w' := acts' + [Reconnect(0)], Step(w', Reconnect(0));
    assert w' == With(Up(false, 0, None, [], [], [], 0, 1, [P.FromEarliest], None, [], 0, 0, 0, []));
    acts', w' := LandsAtTheSecond(acts', w');
  }

  /** The earliest byte the ring holds is the second. */
  lemma LandsAtTheSecond(acts: seq<Act>, w: World) returns (acts': seq<Act>, w': World)
    requires After(Init(1), acts) == Some(w) && w.ring == R.Window(1, [1, 2], 1)
    requires w.daemon.Up? && w.daemon.asks == [P.FromEarliest] && w.daemon.starting == None && Pending(w.daemon) == []
    ensures After(Init(1), acts') == Some(w')
    ensures w' == w.(daemon := w.daemon.(live := true, sent := 1, asks := [], leaving := Leaving(w'.daemon)))
    ensures w'.daemon.leaving == if w.daemon.live then w.daemon.leaving + [w.daemon.sent] else w.daemon.leaving
  {
    Next(acts, w, Serve);
    acts', w' := acts + [Serve], Step(w, Serve);
    assert w.daemon.asks[1..] == [];
    assert w'.daemon == w.daemon.(asks := [], starting := Some(1));
    Next(acts', w', Land);
    acts', w' := acts' + [Land], Step(w', Land);
    assert w.daemon.stragglers == [] && w'.daemon.stragglers == [];
  }

  /** The new stream's frame is on its way when the stale notice is handled and a second stream started. */
  lemma ResyncedUnderAFrame() returns (acts: seq<Act>, w: World)
    ensures After(Init(1), acts) == Some(w)
    ensures w == With(Up(true, 1, None, [], [2], [P.Frame([2], 2)], 0, 0, [], None, [1], 0, 0, 0, []))
  {
    acts, w := ReplacedUnderANotice();
    acts, w := SendsTheSecond(acts, w);
    Next(acts, w, Ask);
    acts, w := acts + [Ask], Step(w, Ask);
    assert w.daemon.asks == [P.FromCursor(0)];
    Next(acts, w, Serve);
    acts, w := acts + [Serve], Step(w, Serve);
    assert w.daemon == Up(true, 2, None, [], [], [P.Frame([2], 2)], 0, 0, [P.FromEarliest], None, [1], 0, 0, 0, []);
    acts, w := LandsAtTheSecond(acts, w);
  }

  /** A second stream that stands before the second byte, whose frame is queued already, repeats it. */
  lemma RepeatsTheSecond(acts: seq<Act>, w: World) returns (acts': seq<Act>, w': World)
    requires After(Init(1), acts) == Some(w) && w.daemon.Up?
    requires w == With(w.daemon.(live := true, sent := 1, offering := None, wire := [], persistFrom := 0, lastSeq := 1,
                                 queue := [Event(1, [2], 2)]))
    ensures After(Init(1), acts') == Some(w') && !OrderlyRun(Init(1), acts')
    ensures w'.ring.history == [1, 2] && w'.log.cursor == 2 && Cold(w'.log) == [2, 2]
  {
    acts', w' := SendsTheSecond(acts, w);
    acts', w' := SecondArrives(acts', w');
    var es := [Event(1, [2], 2), Event(2, [2], 2)];
    assert w'.daemon.queue == es && es[..2] == es;
    Next(acts', w', Commit(2));
    acts', w' := acts' + [Commit(2)], Step(w', Commit(2));
    StoredTwice(es);
    if OrderlyRun(Init(1), acts') {
      StoredIsHistoryLessLost(1, acts');
    }
  }

  lemma StoredTwice(es: seq<Event>)
    requires es == [Event(1, [2], 2), Event(2, [2], 2)]
    ensures var l := PersistAll(Log(map[], 0), es); l.cursor == 2 && Cold(l) == [2, 2]
    ensures Surviving([1, 2], {} + Skipped(0, es), 2) == [2]
  {
    var one := Persist(Log(map[], 0), es[0]);
    var two := Persist(one, es[1]);
    assert es[1..] == [es[1]] && es[1..][1..] == [];
    assert PersistAll(one, es[1..]) == PersistAll(two, []);
    MaxIs(two.rows, 2);
    assert History(two.rows, 0, 1) == History(two.rows, 0, 0) + two.rows[1];
    assert Skipped(2, es[1..]) == Range(2, 1) + Skipped(2, []);
    assert 0 in Range(0, 1) && 1 !in Range(0, 1) && 1 !in Range(2, 1);
    assert Surviving([1, 2], {} + Skipped(0, es), 1) == Surviving([1, 2], {} + Skipped(0, es), 0);
  }

  /**
   A notice received before the connection was replaced starts a second stream on the new one:
   of the output 1, 2 the cold history is 2, 2.
   */
  lemma StaleNoticeRepeatsOutput() returns (acts: seq<Act>, w: World)
    ensures After(Init(1), acts) == Some(w) && !OrderlyRun(Init(1), acts)
    ensures w.ring.history == [1, 2] && w.log.cursor == 2 && Cold(w.log) == [2, 2]
  {
    acts, w := ResyncedUnderAFrame();
    acts, w := SecondArrives(acts, w);
    assert w.daemon.wire == [] && w.daemon.queue == [Event(1, [2], 2)];
    acts, w := RepeatsTheSecond(acts, w);
  }

  /** An adoption finds a gap and starts at the second byte. */
  lemma AdoptedAfterAGap() returns (acts: seq<Act>, w: World)
    ensures After(Init(1), acts) == Some(w)
    ensures w == With(Up(true, 1, None, [], [], [], 0, 0, [], None, [1], 0, 0, 0, []))
  {
    MaxIs(map[], 0);
    acts, w := [], Init(1);
    TwoBytes(w);
    Next(acts, w, Push(R.Stored([1])));
    acts, w := acts + [Push(R.Stored([1]))], Step(w, Push(R.Stored([1])));
    Next(acts, w, Push(R.Stored([2])));
    acts, w := acts + [Push(R.Stored([2]))], Step(w, Push(R.Stored([2])));
    Next(acts, w, Adopt);
    acts, w := acts + [Adopt], Step(w, Adopt);
    assert w == With(Up(false, 0, None, [], [], [], 0, 0, [P.FromEarliest], None, [1], 0, 0, 0, []));
    acts, w := LandsAtTheSecond(acts, w);
  }

  /**
   So does a gap whose cursor is set on the route only after output past it has arrived, if
   the connection is then replaced.
   */
  lemma SettingBackRepeatsOutput() returns (acts: seq<Act>, w: World)
    ensures After(Init(1), acts) == Some(w) && !OrderlyRun(Init(1), acts)
    ensures w.ring.history == [1, 2] && w.log.cursor == 2 && Cold(w.log) == [2, 2]
  {
    acts, w := AdoptedAfterAGap();
    acts, w := SendsTheSecond(acts, w);
    acts, w := SecondArrives(acts, w);
    assert w.daemon == Up(true, 2, None, [], [], [], 0, 0, [], None, [1], 2, 0, 1, [Event(1, [2], 2)]);
    Next(acts, w, Settle(true));
    acts, w := acts + [Settle(true)], Step(w, Settle(true));
    assert w.daemon == Up(true, 2, None, [], [], [], 0, 0, [], None, [], 1, 0, 1, [Event(1, [2], 2)]);
    Next(acts, w, Reconnect(0));
    acts, w := acts + [Reconnect(0)], Step(w, Reconnect(0));
    acts, w := RepeatsTheSecond(acts, w);
  }
}
