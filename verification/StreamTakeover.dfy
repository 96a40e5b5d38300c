/**
 How cancelled streams stop, and what takeovers can do when the conditions of
 `StreamSlot.SingleAttacher` are not met.
 */
module StreamTakeover {
  import opened Base
  import opened StreamProtocol
  import opened WakeSignal
  import Slots = StreamSlot

  // ---- a cancelled stream stops ----

  /** Steps a cancelled task has left at most. */
  function StepsLeft(pc: TaskPc): nat {
    match pc
    case Begin => 9
    case SendOffer => 9
    case ParkWoken => 9
    case Top => 8
    case Read => 7
    case CheckStatus => 6
    case CheckHead => 5
    case Parked => 5
    case SendCancel => 4
    case ParkCancel => 4
    case Forget => 3
    case Leave => 2
    case Done => 0
  }

  predicate MovesTask(a: Action, t: TaskId) {
    (a.RunTask? || a.Offer?) && a.task == t
  }

  lemma CancelledTaskStep(k: Task, s: Session, woken: bool)
    requires k.pc != SendOffer && k.pc != Done
    ensures var k' := TaskStep(k, s, true, woken);
            StepsLeft(k'.pc) < StepsLeft(k.pc) && k'.pc != SendOffer && k'.frames == k.frames
  {
  }

  lemma OfferedStep(k: Task, o: Offered)
    requires k.pc == SendOffer
    ensures var k' := OfferStep(k, o);
            && StepsLeft(k'.pc) < StepsLeft(k.pc) && k'.pc != SendOffer
            && (k'.frames == k.frames || k'.frames == k.frames + [Frame(k.pending, k.cursor)])
  {
  }

  lemma OthersLeaveTask(s: State, a: Action, t: TaskId)
    requires Slots.Ids(s.slot, s.tasks) && Can(s, a) && t in s.tasks && !MovesTask(a, t)
    ensures t in Step(s, a).tasks && Step(s, a).tasks[t] == s.tasks[t]
  {
  }

  lemma StepKeepsIds(s: State, a: Action)
    requires Slots.Ids(s.slot, s.tasks) && Can(s, a)
    ensures Slots.Ids(Step(s, a).slot, Step(s, a).tasks) && s.slot.cancelled <= Step(s, a).slot.cancelled
  {
    match a {
      case Reader(_) =>
      case RunTask(t) => Slots.TaskKeepsIds(s, t);
      case Offer(_, _) =>
      case Request(c, req) => Slots.RequestKeepsIds(s.slot, s.tasks, c, req);
      case RunHandler(c) =>
        Slots.HandlerKeepsIds(s, c);
        Slots.HandlerKeepsCancelled(s.slot, s.sess, c);
    }
  }

  /** How a cancelled task stands after some of its own moves: `k` then, `k'` now. */
  ghost predicate WindingUp(k: Task, k': Task, moves: nat) {
    && moves + StepsLeft(k'.pc) <= StepsLeft(k.pc)
    && (k'.pc == SendOffer ==> k' == k)
    && (k'.frames == k.frames || (k.pc == SendOffer && k'.frames == k.frames + [Frame(k.pending, k.cursor)]))
  }

  lemma StaysWindingUp(k: Task, s: State, a: Action, t: TaskId, moves: nat)
    requires Can(s, a) && t in s.tasks && t in s.slot.cancelled && MovesTask(a, t) && WindingUp(k, s.tasks[t], moves)
    ensures t in Step(s, a).tasks && WindingUp(k, Step(s, a).tasks[t], moves + 1)
  {
    if a.Offer? {
      OfferedStep(s.tasks[t], a.outcome);
    } else {
      CancelledTaskStep(s.tasks[t], s.sess, Ready(s.wake, t));
    }
  }

  /** How many of the actions are moves of `t`. */
  function OwnMoves(acts: seq<Action>, t: TaskId): nat {
    if acts == [] then 0
    else OwnMoves(acts[..|acts| - 1], t) + if MovesTask(acts[|acts| - 1], t) then 1 else 0
  }

  /**
   From the moment it is cancelled and whatever the others do: a stream makes at most nine
   moves, the ninth leaves it Done, and the only output it may still enqueue is the one
   frame it was offering at that moment.
   */
  lemma {:induction false} CancelledStreamStops(s: State, acts: seq<Action>, t: TaskId)
    requires Slots.Ids(s.slot, s.tasks) && After(s, acts).Some? && t in s.tasks && t in s.slot.cancelled
    ensures var s' := After(s, acts).value;
            && Slots.Ids(s'.slot, s'.tasks) && t in s'.tasks && t in s'.slot.cancelled
            && WindingUp(s.tasks[t], s'.tasks[t], OwnMoves(acts, t))
            && OwnMoves(acts, t) <= 9
            && (OwnMoves(acts, t) == 9 ==> s'.tasks[t].pc == Done)
  {
    if acts != [] {
      var before, a := acts[..|acts| - 1], acts[|acts| - 1];
      CancelledStreamStops(s, before, t);
      var m := After(s, before).value;
      StepKeepsIds(m, a);
      if MovesTask(a, t) {
        StaysWindingUp(s.tasks[t], m, a, t, OwnMoves(before, t));
      } else {
        OthersLeaveTask(m, a, t);
      }
    }
  }

  /** What one step of a task changes beside itself, be it on its way out or not. */
  lemma DriveStepElsewhere(s: State, t: TaskId)
    requires t in s.tasks && s.tasks[t].pc != Done
    ensures var m := Step(s, Driving(s, t));
            && m.tasks.Keys == s.tasks.Keys && m.sess == s.sess
            && (forall u :: u in s.tasks && u != t ==> m.tasks[u] == s.tasks[u])
            && m.slot.cancelled == s.slot.cancelled && m.slot.handlers == s.slot.handlers
            && m.slot.attacher == (if s.tasks[t].pc == Leave then s.slot.Vacate(s.tasks[t].conn) else s.slot).attacher
  {
  }

  lemma DriveStep(s: State, t: TaskId)
    requires t in s.tasks && s.tasks[t].pc != Done && (t in s.slot.cancelled || s.tasks[t].pc == Leave)
    ensures var k, k' := s.tasks[t], Step(s, Driving(s, t)).tasks[t];
            k'.conn == k.conn && StepsLeft(k'.pc) < StepsLeft(k.pc) && (k.pc == Leave <==> k'.pc == Done)
  {
    if s.tasks[t].pc == SendOffer {
      OfferedStep(s.tasks[t], Disconnected);
    } else {
      CancelledTaskStep(s.tasks[t], s.sess, Ready(s.wake, t));
    }
  }

  function Driving(s: State, t: TaskId): Action
    requires t in s.tasks
  {
    if s.tasks[t].pc == SendOffer then Offer(t, Disconnected) else RunTask(t)
  }

  /** A run of `t` to its end. Its connection's slot, if it still has it, is empty afterwards. */
  lemma DriveToDone(s: State, t: TaskId) returns (acts: seq<Action>, s': State)
    requires t in s.tasks && s.tasks[t].pc != Done && (t in s.slot.cancelled || s.tasks[t].pc == Leave)
    ensures After(s, acts) == Some(s')
    ensures s'.tasks.Keys == s.tasks.Keys && s'.tasks[t].pc == Done
    ensures forall u :: u in s.tasks && u != t ==> s'.tasks[u] == s.tasks[u]
    ensures s'.slot.attacher == s.slot.Vacate(s.tasks[t].conn).attacher
    ensures s'.slot.cancelled == s.slot.cancelled && s'.slot.handlers == s.slot.handlers
    decreases StepsLeft(s.tasks[t].pc)
  {
    var a := Driving(s, t);
    var m := Step(s, a);
    DriveStepElsewhere(s, t);
    DriveStep(s, t);
    if m.tasks[t].pc == Done {
      acts, s' := [a], m;
      assert acts[..0] == [];
    } else {
      var rest: seq<Action>;
      rest, s' := DriveToDone(m, t);
      acts := [a] + rest;
      AfterCons(s, a, rest);
    }
  }

  // ---- an attach, step by step ----

  function Installed(s: State, c: ConnId): State {
    s.(slot := s.slot.(attacher := Some(Attacher(c, s.slot.next)), next := s.slot.next + 1)
               .Goto(c, Evict(s.slot.next, s.sess.Head(), s.slot.attacher)))
  }

  /** A live attach up to the point where it has the slot and has not yet cancelled the stream it took it from. */
  lemma AttachTakesTheSlot(s: State, c: ConnId) returns (acts: seq<Action>)
    requires s.slot.Handler(c) == Idle
    ensures After(s, acts) == Some(Installed(s, c))
    ensures acts != [] && acts[0] == Request(c, Attach(LiveOnly)) && forall i :: 0 < i < |acts| ==> acts[i].RunHandler?
  {
    var s1 := Step(s, Request(c, Attach(LiveOnly)));
    var s2 := Step(s1, RunHandler(c));
    var s3 := Step(s2, RunHandler(c));
    var s4 := Step(s3, RunHandler(c));
    assert s3.slot == s.slot.Goto(c, Install(s.sess.Head()));
    assert s4 == Installed(s, c);
    AfterCons(s3, RunHandler(c), []);
    AfterCons(s2, RunHandler(c), [RunHandler(c)]);
    AfterCons(s1, RunHandler(c), [RunHandler(c)] + [RunHandler(c)]);
    AfterCons(s, Request(c, Attach(LiveOnly)), [RunHandler(c)] + ([RunHandler(c)] + [RunHandler(c)]));
    acts := [Request(c, Attach(LiveOnly))] + ([RunHandler(c)] + ([RunHandler(c)] + [RunHandler(c)]));
  }

  /** Cancelling the evicted stream and the connection's own entry, and entering the new one. */
  lemma AttachRecords(s: State, c: ConnId) returns (acts: seq<Action>, s': State)
    requires s.slot.Handler(c).Evict?
    ensures After(s, acts) == Some(s') && |acts| == 2 && forall i :: 0 <= i < |acts| ==> acts[i].RunHandler?
    ensures var h := s.slot.Handler(c);
            && s'.slot == Slot(s.slot.attacher, s.slot.streams[c := h.task],
                               s.slot.cancelled + (if h.prior.Some? then {h.prior.value.task} else {})
                               + (if c in s.slot.streams then {s.slot.streams[c]} else {}),
                               s.slot.handlers[c := AskAlive(h.task, h.at)], s.slot.next)
            && s'.tasks == s.tasks && s'.sess == s.sess && s'.wake == s.wake
  {
    AfterTwo(s, RunHandler(c), RunHandler(c));
    acts, s' := [RunHandler(c), RunHandler(c)], Step(Step(s, RunHandler(c)), RunHandler(c));
  }

  /** Asking whether the session is alive, and spawning. */
  lemma AttachStarts(s: State, c: ConnId) returns (acts: seq<Action>, s': State)
    requires s.slot.Handler(c).AskAlive?
    ensures After(s, acts) == Some(s') && |acts| == 2 && forall i :: 0 <= i < |acts| ==> acts[i].RunHandler?
    ensures var h := s.slot.Handler(c);
            && s'.tasks == s.tasks[h.task := NewTask(c, h.at, s.sess.alive)]
            && s'.slot == s.slot.Goto(c, Idle) && s'.sess == s.sess && s'.wake == s.wake
  {
    AfterTwo(s, RunHandler(c), RunHandler(c));
    acts, s' := [RunHandler(c), RunHandler(c)], Step(Step(s, RunHandler(c)), RunHandler(c));
    assert s.slot.handlers[c := Spawn(s.slot.Handler(c).task, s.slot.Handler(c).at, s.sess.alive)][c := Idle]
        == s.slot.handlers[c := Idle];
  }

  /** The rest of the attach: cancel the evicted stream and the connection's own entry, then spawn. */
  lemma AttachSpawns(s: State, c: ConnId) returns (acts: seq<Action>, s': State)
    requires s.slot.Handler(c).Evict?
    ensures After(s, acts) == Some(s')
    ensures forall i :: 0 <= i < |acts| ==> acts[i].RunHandler?
    ensures var h := s.slot.Handler(c);
            && s'.tasks == s.tasks[h.task := NewTask(c, h.at, s.sess.alive)]
            && s'.slot.attacher == s.slot.attacher
            && s'.slot.next == s.slot.next
            && s'.slot.handlers == s.slot.handlers[c := Idle]
            && s'.slot.cancelled == s.slot.cancelled
                                    + (if h.prior.Some? then {h.prior.value.task} else {})
                                    + (if c in s.slot.streams then {s.slot.streams[c]} else {})
            && s'.slot.streams == s.slot.streams[c := h.task]
            && s'.sess == s.sess && s'.wake == s.wake
  {
    var first, m := AttachRecords(s, c);
    var second: seq<Action>;
    second, s' := AttachStarts(m, c);
    AfterConcat(s, first, second);
    acts := first + second;
  }

  // ---- without the condition ----

  /**
   The condition on re-attaching is needed wherever it fails: from every state of
   a courteous run in which connection `c` has a stream `t` still running, an
   attach by `c` can be followed by `t`'s own exit so that the new stream runs on,
   not cancelled, with nothing in the slot. Input is then refused and the next
   takeover will not stop it.
   */
  lemma ReattachEmptiesTheSlot(s: State, c: ConnId, t: TaskId) returns (acts: seq<Action>, s': State)
    requires Slots.Inv(s) && s.slot.Handler(c) == Idle
    requires t in s.tasks && s.tasks[t].conn == c && s.tasks[t].pc != Done
    ensures acts != [] && acts[0] == Request(c, Attach(LiveOnly)) && !Slots.Courteous(s, acts[0])
    ensures After(s, acts) == Some(s')
    ensures Slots.Streaming(s', s.slot.next) && s'.tasks[s.slot.next].conn == c
    ensures s'.slot.attacher == None
    ensures forall d :: d in s'.slot.handlers && d != c ==>
              d in s.slot.handlers && s'.slot.handlers[d] == s.slot.handlers[d]
    ensures s'.slot.Handler(c) == Idle
  {
    var first := AttachTakesTheSlot(s, c);
    var m := Installed(s, c);
    var second, n := AttachSpawns(m, c);
    AfterConcat(s, first, second);
    if Slots.Streaming(s, t) {
      assert s.slot.streams[c] == t;
    }
    var third: seq<Action>;
    third, s' := DriveToDone(n, t);
    AfterConcat(s, first + second, third);
    acts := first + second + third;
  }

  lemma {:induction false} CourteousExtend(cap: nat, before: seq<Action>, more: seq<Action>)
    requires Slots.CourteousRun(cap, before) && After(Init(cap), before).Some?
    requires more != [] ==> Slots.Courteous(After(Init(cap), before).value, more[0])
    requires forall i :: 0 < i < |more| ==> !more[i].Request?
    ensures Slots.CourteousRun(cap, before + more)
  {
    if more == [] {
      assert before + more == before;
    } else {
      var init := more[..|more| - 1];
      CourteousExtend(cap, before, init);
      assert (before + more)[..|before + more| - 1] == before + init;
      if init == [] {
        assert before + init == before;
      }
    }
  }

  /** A whole attach by a connection none of whose streams is running. */
  lemma AttachFully(cap: nat, before: seq<Action>, s: State, c: ConnId) returns (acts: seq<Action>, s': State)
    requires Slots.CourteousRun(cap, before) && After(Init(cap), before) == Some(s)
    requires s.slot.Handler(c) == Idle && Slots.OwnStreamsDone(s.tasks, c)
    ensures Slots.CourteousRun(cap, acts) && After(Init(cap), acts) == Some(s')
    ensures s'.tasks == s.tasks[s.slot.next := NewTask(c, s.sess.Head(), s.sess.alive)]
    ensures s'.slot.next == s.slot.next + 1 && s'.slot.attacher == Some(Attacher(c, s.slot.next))
    ensures s'.slot.handlers == s.slot.handlers[c := Idle] && s'.slot.streams == s.slot.streams[c := s.slot.next]
    ensures s'.sess == s.sess && s'.wake == s.wake
    ensures s'.slot.cancelled == s.slot.cancelled
                                 + (if s.slot.attacher.Some? then {s.slot.attacher.value.task} else {})
                                 + (if c in s.slot.streams then {s.slot.streams[c]} else {})
  {
    var first := AttachTakesTheSlot(s, c);
    CourteousExtend(cap, before, first);
    AfterConcat(Init(cap), before, first);
    var second: seq<Action>;
    second, s' := AttachSpawns(Installed(s, c), c);
    CourteousExtend(cap, before + first, second);
    AfterConcat(Init(cap), before + first, second);
    acts := before + first + second;
  }

  lemma UnderWay(s: State, c: ConnId, t: TaskId)
    requires Slots.Streaming(s, t) && c in s.slot.handlers && Slots.OwedBy(s.slot.handlers[c], t)
    ensures Slots.TakeoverUnderWay(s) && Slots.Owed(s.slot, t)
  {
  }

  /**
   A takeover is not atomic: its handler first waits to tell the old connection.
   If a third connection takes over meanwhile, two streams of the session run
   uncancelled, on a run that meets the condition of `SingleAttacher`.
   */
  lemma TwoStreamsDuringATakeover(cap: nat) returns (acts: seq<Action>, s: State)
    ensures Slots.CourteousRun(cap, acts) && After(Init(cap), acts) == Some(s)
    ensures Slots.Streaming(s, 0) && Slots.Streaming(s, 2) && s.tasks[0].conn == 1 && s.tasks[2].conn == 3
    ensures Slots.TakeoverUnderWay(s) && Slots.Owed(s.slot, 0)
  {
    var one, s1 := AttachFully(cap, [], Init(cap), 1);
    var two := AttachTakesTheSlot(s1, 2);
    CourteousExtend(cap, one, two);
    AfterConcat(Init(cap), one, two);
    var s2 := Installed(s1, 2);
    acts, s := AttachFully(cap, one + two, s2, 3);
    UnderWay(s, 2, 0);
  }

  /** The condition of `SingleAttacher` does fail on a reachable state, from one connection attaching twice. */
  lemma TwoAttachesOfOneConnection(cap: nat) returns (acts: seq<Action>, s: State)
    ensures After(Init(cap), acts) == Some(s) && !Slots.CourteousRun(cap, acts)
    ensures !Slots.TakeoverUnderWay(s) && Slots.Streaming(s, 1) && s.slot.attacher == None
  {
    var one, s1 := AttachFully(cap, [], Init(cap), 1);
    Slots.EveryCourteousRunKeepsInv(cap, one);
    var more: seq<Action>;
    more, s := ReattachEmptiesTheSlot(s1, 1, 0);
    AfterConcat(Init(cap), one, more);
    acts := one + more;
    NotCourteous(cap, one, more);
  }

  lemma {:induction false} NotCourteous(cap: nat, before: seq<Action>, more: seq<Action>)
    requires After(Init(cap), before).Some? && more != []
    requires !Slots.Courteous(After(Init(cap), before).value, more[0])
    ensures !Slots.CourteousRun(cap, before + more)
  {
    assert (before + more)[..|before + more| - 1] == before + more[..|more| - 1];
    if |more| == 1 {
      assert before + more[..0] == before;
    } else {
      NotCourteous(cap, before, more[..|more| - 1]);
    }
  }

  // ---- a takeover can lose a wakeup ----

  lemma ComesToRead(s: State, t: TaskId) returns (s': State)
    requires t in s.tasks && s.tasks[t].pc == Begin
    ensures After(s, [RunTask(t)] + [RunTask(t)]) == Some(s')
    ensures s' == s.(tasks := s.tasks[t := s.tasks[t].(pc := Read, reported := s.sess.drops)])
  {
    var s1 := Step(s, RunTask(t));
    s' := Step(s1, RunTask(t));
    AfterCons(s1, RunTask(t), []);
    AfterCons(s, RunTask(t), [RunTask(t)]);
  }

  lemma ReadsNothing(s: State, t: TaskId) returns (s': State)
    requires t in s.tasks && s.tasks[t].pc == Read && t !in s.slot.cancelled
    requires s.sess.alive && s.sess.ring.Valid() && s.tasks[t].cursor == s.sess.Head()
    ensures After(s, [RunTask(t)] + ([RunTask(t)] + [RunTask(t)])) == Some(s')
    ensures s' == s.(tasks := s.tasks[t := s.tasks[t].(pc := ParkWoken)])
  {
    var s1 := Step(s, RunTask(t));
    var s2 := Step(s1, RunTask(t));
    s' := Step(s2, RunTask(t));
    AfterCons(s2, RunTask(t), []);
    AfterCons(s1, RunTask(t), [RunTask(t)]);
    AfterCons(s, RunTask(t), [RunTask(t)] + [RunTask(t)]);
  }

  /** A stream of a live session with nothing to read comes to poll the data signal within five steps. */
  lemma ComesToPoll(s: State, t: TaskId) returns (acts: seq<Action>, s': State)
    requires t in s.tasks && s.tasks[t].pc == Begin && t !in s.slot.cancelled
    requires s.sess.alive && s.sess.ring.Valid() && s.tasks[t].cursor == s.sess.Head()
    ensures After(s, acts) == Some(s') && forall i :: 0 <= i < |acts| ==> acts[i].RunTask?
    ensures s'.tasks == s.tasks[t := s.tasks[t].(pc := ParkWoken, reported := s.sess.drops)]
    ensures s'.sess == s.sess && s'.slot == s.slot && s'.wake == s.wake
  {
    var m := ComesToRead(s, t);
    s' := ReadsNothing(m, t);
    AfterConcat(s, [RunTask(t)] + [RunTask(t)], [RunTask(t)] + ([RunTask(t)] + [RunTask(t)]));
    acts := ([RunTask(t)] + [RunTask(t)]) + ([RunTask(t)] + ([RunTask(t)] + [RunTask(t)]));
  }

  /** One byte is pushed and signalled while nobody is registered: task 0 takes the permit, task 1 parks. */
  lemma OldStreamTakesThePermit(s: State) returns (acts: seq<Action>, s': State)
    requires s.tasks.Keys == {0, 1} && s.tasks[0].pc == ParkWoken && s.tasks[1].pc == ParkWoken
    requires s.sess.reader == Reading && s.wake == Quiet() && s.tasks[1].cursor == s.sess.Head()
    ensures After(s, acts) == Some(s') && forall i :: 0 <= i < |acts| ==> !acts[i].Request?
    ensures 1 in s'.tasks && s'.tasks[1] == s.tasks[1].(pc := Parked) && s'.sess.Head() == s.sess.Head() + 1
    ensures !s'.sess.SignalOwed() && !s'.wake.Pending() && s'.slot == s.slot
  {
    var s1 := Step(s, Reader(Store([0])));
    var s2 := Step(s1, Reader(Notify));
    var s3 := Step(s2, RunTask(0));
    s' := Step(s3, RunTask(1));
    AfterCons(s3, RunTask(1), []);
    AfterCons(s2, RunTask(0), [RunTask(1)]);
    AfterCons(s1, Reader(Notify), [RunTask(0)] + [RunTask(1)]);
    AfterCons(s, Reader(Store([0])), [Reader(Notify)] + ([RunTask(0)] + [RunTask(1)]));
    acts := [Reader(Store([0]))] + ([Reader(Notify)] + ([RunTask(0)] + [RunTask(1)]));
  }

  lemma Continue(cap: nat, before: seq<Action>, s: State, more: seq<Action>)
    requires Slots.CourteousRun(cap, before) && After(Init(cap), before) == Some(s)
    requires forall i :: 0 <= i < |more| ==> !more[i].Request?
    ensures Slots.CourteousRun(cap, before + more)
    ensures After(Init(cap), before + more) == After(s, more)
  {
    CourteousExtend(cap, before, more);
    AfterConcat(Init(cap), before, more);
  }

  lemma OldStreamPolls(cap: nat) returns (acts: seq<Action>, s: State)
    ensures Slots.CourteousRun(cap, acts) && After(Init(cap), acts) == Some(s)
    ensures s.tasks.Keys == {0} && s.tasks[0].pc == ParkWoken && s.tasks[0].conn == 1
    ensures s.sess == Init(cap).sess && s.wake == Quiet()
    ensures s.slot.next == 1 && s.slot.attacher == Some(Attacher(1, 0)) && s.slot.cancelled == {}
    ensures s.slot.handlers == map[1 := Idle] && s.slot.streams == map[1 := 0]
  {
    var one, s1 := AttachFully(cap, [], Init(cap), 1);
    var poll, s2 := ComesToPoll(s1, 0);
    Continue(cap, one, s1, poll);
    acts, s := one + poll, s2;
  }

  lemma NewStreamPolls(cap: nat) returns (acts: seq<Action>, s: State)
    ensures Slots.CourteousRun(cap, acts) && After(Init(cap), acts) == Some(s)
    ensures s.tasks.Keys == {0, 1} && s.tasks[0].pc == ParkWoken && s.tasks[1].pc == ParkWoken
    ensures s.tasks[1].cursor == 0 && s.sess == Init(cap).sess && s.wake == Quiet()
    ensures s.slot.cancelled == {0} && s.slot.handlers == map[1 := Idle, 2 := Idle]
  {
    var before, s1 := OldStreamPolls(cap);
    var two, s2 := AttachFully(cap, before, s1, 2);
    var poll, s3 := ComesToPoll(s2, 1);
    Continue(cap, two, s2, poll);
    acts, s := two + poll, s3;
  }

  /**
   Two connections, each attaching once, are enough to lose a wakeup: the old
   stream has looked at its cancel handle but not yet at the data signal when the
   new one is installed, and takes the only permit. The new stream then waits,
   uncancelled and behind the head, with no notification anywhere.
   */
  lemma TakeoverCanLoseAWakeup(cap: nat) returns (acts: seq<Action>, s: State)
    ensures After(Init(cap), acts) == Some(s) && Slots.CourteousRun(cap, acts) && !Slots.TakeoverUnderWay(s)
    ensures Slots.Streaming(s, 1) && s.tasks[1].pc == Parked && s.tasks[1].cursor < s.sess.Head()
    ensures !s.sess.SignalOwed() && !s.wake.Pending()
  {
    var before, s1 := NewStreamPolls(cap);
    var last: seq<Action>;
    last, s := OldStreamTakesThePermit(s1);
    Continue(cap, before, s1, last);
    acts := before + last;
  }
}
