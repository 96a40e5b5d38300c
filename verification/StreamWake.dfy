/**
 Wakeups of parked streams. One permit is shared by every stream of a session, so a
 wakeup is missed only by losing it to another stream; it is not, as long as a new
 stream is started only when no other can still take one. Once the session is dead
 such a stream drains and finishes.
 */
module StreamWake {
  import opened Base
  import opened StreamProtocol
  import opened WakeSignal
  import R = RingHistory
  import Slots = StreamSlot

  predicate Parking(pc: TaskPc) {
    pc == ParkCancel || pc == ParkWoken || pc == Parked
  }

  predicate SawHead(pc: TaskPc) {
    pc == CheckStatus || pc == CheckHead || Parking(pc)
  }

  /**
   Something has changed that the task has already looked at in this round, and will not look at
   again before it waits.
   */
  predicate Behind(s: Session, k: Task) {
    || ((k.pc == Read || SawHead(k.pc)) && s.drops != k.reported)
    || (SawHead(k.pc) && k.cursor < s.Head())
    || (Parking(k.pc) && !s.alive)
  }

  ghost predicate Inv(s: State) {
    && Slots.Ids(s.slot, s.tasks)
    && s.sess.ring.Valid()
    && s.wake.Valid()
    && (forall t :: s.wake.Registered(t) ==> t in s.tasks && Parking(s.tasks[t].pc))
    && (forall t :: t in s.tasks && s.tasks[t].pc == Parked ==> s.wake.Registered(t))
  }

  // ---- every run ----

  lemma ReaderKeepsInv(s: State, act: ReaderAct)
    requires Inv(s) && Can(s, Reader(act))
    ensures Inv(Step(s, Reader(act)))
  {
    NotifyOneIs(s.wake);
    if act.Store? {
      R.ApplyKeepsValid(s.sess.ring, R.Stored(act.data));
    } else if act.Refuse? {
      R.ApplyKeepsValid(s.sess.ring, R.Refused(act.data));
    }
  }

  lemma TaskKeepsInv(s: State, t: TaskId)
    requires Inv(s) && Can(s, RunTask(t))
    ensures Inv(Run(s, t))
  {
    Slots.TaskKeepsIds(s, t);
    PollIs(s.wake, t);
    AbandonIs(s.wake, t);
  }

  lemma HandlerKeepsInv(s: State, c: ConnId)
    requires Inv(s) && Can(s, RunHandler(c))
    ensures Inv(Handle(s, c))
  {
    Slots.HandlerKeepsIds(s, c);
  }

  lemma StepKeepsInv(s: State, a: Action)
    requires Inv(s) && Can(s, a)
    ensures Inv(Step(s, a))
  {
    match a {
      case Reader(act) => ReaderKeepsInv(s, act);
      case RunTask(t) => TaskKeepsInv(s, t);
      case Offer(t, o) =>
      case Request(c, req) => Slots.RequestKeepsIds(s.slot, s.tasks, c, req);
      case RunHandler(c) => HandlerKeepsInv(s, c);
    }
  }

  lemma {:induction false} RunKeepsInv(s: State, acts: seq<Action>)
    requires Inv(s) && After(s, acts).Some?
    ensures Inv(After(s, acts).value)
  {
    if acts != [] {
      RunKeepsInv(s, acts[..|acts| - 1]);
      StepKeepsInv(After(s, acts[..|acts| - 1]).value, acts[|acts| - 1]);
    }
  }

  lemma EveryRunKeepsInv(cap: nat, acts: seq<Action>)
    requires After(Init(cap), acts).Some?
    ensures Inv(After(Init(cap), acts).value)
  {
    RunKeepsInv(Init(cap), acts);
  }

  // ---- who can take a notification ----

  /** The ring has moved on past the task's cursor: its next read ends it. */
  predicate Lapped(s: Session, k: Task) {
    k.cursor < s.ring.Tail()
  }

  /**
   The task can still consume a notification sent from now on. A cancelled one can if it
   has looked at its cancel handle and not yet at the signal; a lapped one if it will
   wait once more; neither if it has been picked already, for it then looks no further.
   */
  ghost predicate CanTake(s: State, t: TaskId) {
    && t in s.tasks && !s.tasks[t].Ended()
    && if t in s.slot.cancelled then s.tasks[t].pc == ParkWoken && t !in s.wake.picked
       else Lapped(s.sess, s.tasks[t]) ==>
              (s.tasks[t].pc == CheckStatus || s.tasks[t].pc == CheckHead || Parking(s.tasks[t].pc))
               && t !in s.wake.picked
  }

  /** A cancelled task that next looks at its cancel handle, and then drops its place in the signal's queue. */
  ghost predicate PassesOn(s: State, t: TaskId) {
    t in s.tasks && t in s.slot.cancelled && (s.tasks[t].pc == ParkCancel || s.tasks[t].pc == Parked)
  }

  /** A notification is coming that `t` will get. */
  ghost predicate Due(s: State, t: TaskId) {
    s.sess.SignalOwed() || s.wake.permit || t in s.wake.picked || exists v :: v in s.wake.picked && PassesOn(s, v)
  }

  ghost predicate OneTaker(s: State) {
    && (forall t, u :: CanTake(s, t) && CanTake(s, u) ==> t == u)
    && (forall t :: CanTake(s, t) && Behind(s.sess, s.tasks[t]) ==> Due(s, t))
  }

  /** The handler of `c` is about to start a stream that can take a notification itself. */
  ghost predicate StartsTaker(s: State, c: ConnId) {
    var h := s.slot.Handler(c);
    h.Spawn? && h.task !in s.slot.cancelled && s.sess.ring.Tail() <= h.at
  }

  /** Such a stream is started only when no other stream can take a notification. */
  ghost predicate HandsOver(s: State, a: Action) {
    a.RunHandler? && StartsTaker(s, a.conn) ==> forall t :: !CanTake(s, t)
  }

  ghost predicate HandoverRun(cap: nat, acts: seq<Action>) {
    acts != [] ==>
      && HandoverRun(cap, acts[..|acts| - 1])
      && (After(Init(cap), acts[..|acts| - 1]).Some? ==>
            HandsOver(After(Init(cap), acts[..|acts| - 1]).value, acts[|acts| - 1]))
  }

  /** Whoever is next in the signal's queue is the taker, or a cancelled task that will pass it on. */
  lemma NextInQueue(s: State, v: TaskId, t: TaskId)
    requires Inv(s) && OneTaker(s) && CanTake(s, t) && v in s.wake.waiters
    ensures v == t || PassesOn(s, v)
  {
    assert s.wake.Registered(v);
    var i :| 0 <= i < |s.wake.waiters| && s.wake.waiters[i] == v;
    assert v !in s.wake.picked;
    if !PassesOn(s, v) {
      assert CanTake(s, v);
    }
  }

  /** No step makes a task that cannot take a notification one that can. */
  lemma TaskTakesNoMore(s: State, t: TaskId)
    requires Inv(s) && Can(s, RunTask(t)) && CanTake(Run(s, t), t)
    ensures CanTake(s, t)
  {
    PollIs(s.wake, t);
    if t in s.wake.picked {
      assert s.wake.Registered(t);
    }
  }

  lemma ReaderTakesNoMore(s: State, act: ReaderAct, t: TaskId)
    requires Inv(s) && Can(s, Reader(act)) && CanTake(Step(s, Reader(act)), t)
    ensures CanTake(s, t)
  {
    NotifyOneIs(s.wake);
    if act.Store? {
      R.ApplyKeepsValid(s.sess.ring, R.Stored(act.data));
    } else if act.Refuse? {
      R.ApplyKeepsValid(s.sess.ring, R.Refused(act.data));
    }
  }

  lemma OthersTakeNoMore(s: State, u: TaskId, t: TaskId)
    requires Inv(s) && Can(s, RunTask(u)) && u != t && CanTake(Run(s, u), t)
    ensures CanTake(s, t)
  {
    NotifyOneIs(s.wake.(picked := s.wake.picked - {u}));
  }

  lemma TakesNoMore(s: State, a: Action, t: TaskId)
    requires Inv(s) && Can(s, a) && t in s.tasks && CanTake(Step(s, a), t)
    ensures CanTake(s, t)
  {
    match a {
      case Reader(act) => ReaderTakesNoMore(s, act, t);
      case RunTask(u) =>
        if u == t {
          TaskTakesNoMore(s, t);
        } else {
          OthersTakeNoMore(s, u, t);
        }
      case Offer(u, o) =>
      case Request(c, req) =>
      case RunHandler(c) => HandlerTakesNoMore(s, c, t);
    }
  }

  lemma HandlerTakesNoMore(s: State, c: ConnId, t: TaskId)
    requires Inv(s) && Can(s, RunHandler(c)) && t in s.tasks && CanTake(Handle(s, c), t)
    ensures CanTake(s, t)
  {
    Slots.HandlerKeepsCancelled(s.slot, s.sess, c);
  }

  // ---- a notification stays due ----

  lemma ReaderKeepsDue(s: State, act: ReaderAct, t: TaskId)
    requires Inv(s) && OneTaker(s) && Can(s, Reader(act)) && CanTake(s, t)
    requires Behind(Step(s, Reader(act)).sess, s.tasks[t])
    ensures Due(Step(s, Reader(act)), t)
  {
    var s' := Step(s, Reader(act));
    if Signals(act) && s.wake.waiters != [] {
      var v := s.wake.waiters[0];
      NextInQueue(s, v, t);
      assert v in s'.wake.picked;
      assert v != t ==> PassesOn(s', v);
    } else if !s'.sess.SignalOwed() && !Signals(act) {
      assert Behind(s.sess, s.tasks[t]);
      assert forall v :: PassesOn(s, v) ==> PassesOn(s', v);
    }
  }

  lemma OthersKeepDue(s: State, u: TaskId, t: TaskId)
    requires Inv(s) && OneTaker(s) && Can(s, RunTask(u)) && CanTake(s, t) && u != t && Due(s, t)
    ensures Due(Run(s, u), t)
  {
    var s' := Run(s, u);
    var k := s.tasks[u];
    if k.pc == ParkWoken {
      if u !in s.wake.picked {
        assert CanTake(s, u);
      }
      assert forall v :: v != u && PassesOn(s, v) ==> PassesOn(s', v);
    } else if k.pc == ParkCancel && u in s.slot.cancelled && u in s.wake.picked && s.wake.waiters != [] {
      var v := s.wake.waiters[0];
      NextInQueue(s, v, t);
      assert v in s'.wake.picked;
      assert v != u && (v != t ==> PassesOn(s', v));
    } else {
      assert forall v :: PassesOn(s, v) && !(v == u && k.pc == ParkCancel) ==> PassesOn(s', v);
    }
  }

  /** Looking again is what makes a task no longer behind. */
  lemma LookingCatchesUp(s: Session, k: Task, cancelled: bool)
    requires !Parking(k.pc) && k.pc != SendOffer
    ensures Behind(s, TaskStep(k, s, cancelled, false)) ==> Behind(s, k)
  {
    if k.pc == Read && k.cursor < s.Head() {
      var h := s.ring.history;
      assert h[k.cursor..Min(|h|, k.cursor + STREAM_CHUNK)] != [];
    }
  }

  lemma OwnLookKeepsDue(s: State, t: TaskId)
    requires Inv(s) && OneTaker(s) && Can(s, RunTask(t)) && CanTake(s, t) && !Parking(s.tasks[t].pc)
    requires Behind(s.sess, Run(s, t).tasks[t])
    ensures Due(Run(s, t), t)
  {
    var cancelled := t in s.slot.cancelled;
    LookingCatchesUp(s.sess, s.tasks[t], cancelled);
    assert Run(s, t).tasks[t] == TaskStep(s.tasks[t], s.sess, cancelled, false);
    assert forall v :: PassesOn(s, v) ==> v != t && PassesOn(Run(s, t), v);
  }

  lemma OwnPollKeepsDue(s: State, t: TaskId)
    requires Inv(s) && OneTaker(s) && Can(s, RunTask(t)) && CanTake(s, t) && Parking(s.tasks[t].pc)
    requires CanTake(Run(s, t), t) && Behind(s.sess, Run(s, t).tasks[t])
    ensures Due(Run(s, t), t)
  {
    PollIs(s.wake, t);
    assert Behind(s.sess, s.tasks[t]);
    assert forall v :: v != t && PassesOn(s, v) ==> PassesOn(Run(s, t), v);
  }

  lemma HandlerKeepsDue(s: State, c: ConnId, t: TaskId)
    requires Inv(s) && Can(s, RunHandler(c)) && t in s.tasks && Due(s, t)
    ensures Due(Handle(s, c), t)
  {
    Slots.HandlerKeepsCancelled(s.slot, s.sess, c);
    assert forall v :: PassesOn(s, v) ==> PassesOn(Handle(s, c), v);
  }

  lemma StepKeepsDue(s: State, a: Action, t: TaskId)
    requires Inv(s) && OneTaker(s) && Can(s, a) && t in s.tasks
    requires CanTake(Step(s, a), t) && Behind(Step(s, a).sess, Step(s, a).tasks[t])
    ensures Due(Step(s, a), t)
  {
    TakesNoMore(s, a, t);
    match a {
      case Reader(act) => ReaderKeepsDue(s, act, t);
      case RunTask(u) =>
        if u != t {
          OthersKeepDue(s, u, t);
        } else if Parking(s.tasks[t].pc) {
          OwnPollKeepsDue(s, t);
        } else {
          OwnLookKeepsDue(s, t);
        }
      case Offer(u, o) => assert forall v :: PassesOn(s, v) ==> PassesOn(Step(s, a), v);
      case Request(c, req) => assert forall v :: PassesOn(s, v) ==> PassesOn(Step(s, a), v);
      case RunHandler(c) => HandlerKeepsDue(s, c, t);
    }
  }

  /** Only a spawn adds a task, and that one can take a notification only if its handler starts a taker. */
  lemma NewTaker(s: State, a: Action, t: TaskId)
    requires Inv(s) && Can(s, a) && t !in s.tasks && CanTake(Step(s, a), t)
    ensures a.RunHandler? && StartsTaker(s, a.conn) && !Behind(Step(s, a).sess, Step(s, a).tasks[t])
    ensures t == s.slot.Handler(a.conn).task
  {
  }

  lemma StepKeepsOneTaker(s: State, a: Action)
    requires Inv(s) && OneTaker(s) && Can(s, a) && HandsOver(s, a)
    ensures OneTaker(Step(s, a))
  {
    var s' := Step(s, a);
    forall t | CanTake(s', t)
      ensures t in s.tasks ==> CanTake(s, t)
      ensures t !in s.tasks ==> a.RunHandler? && StartsTaker(s, a.conn) && t == s.slot.Handler(a.conn).task
      ensures Behind(s'.sess, s'.tasks[t]) ==> Due(s', t)
    {
      if t in s.tasks {
        TakesNoMore(s, a, t);
        if Behind(s'.sess, s'.tasks[t]) {
          StepKeepsDue(s, a, t);
        }
      } else {
        NewTaker(s, a, t);
      }
    }
  }

  lemma {:induction false} HandoverRunsKeepOneTaker(cap: nat, acts: seq<Action>)
    requires After(Init(cap), acts).Some? && HandoverRun(cap, acts)
    ensures OneTaker(After(Init(cap), acts).value)
  {
    if acts != [] {
      var before := acts[..|acts| - 1];
      HandoverRunsKeepOneTaker(cap, before);
      EveryRunKeepsInv(cap, before);
      StepKeepsOneTaker(After(Init(cap), before).value, acts[|acts| - 1]);
    }
  }

  // ---- no wakeup is lost ----

  lemma ParkedIsDue(s: State, t: TaskId)
    requires Inv(s) && OneTaker(s) && t in s.tasks && t !in s.slot.cancelled
    requires s.tasks[t].pc == Parked && Behind(s.sess, s.tasks[t])
    ensures s.sess.SignalOwed() || t in s.wake.picked || exists v :: v in s.wake.picked && PassesOn(s, v)
  {
    assert s.wake.Registered(t);
    if t !in s.wake.picked {
      assert CanTake(s, t);
    }
  }

  /**
   On every run in which a stream that can take notifications is started only when no
   other can, takeovers of live streams included: a parked stream with unread output, an
   unreported drop or a dead session has been picked, or the reader is about to signal, or
   a cancelled stream has been picked that next passes the notification on.
   */
  lemma NoLostWakeup(cap: nat, acts: seq<Action>, s: State, t: TaskId)
    requires After(Init(cap), acts) == Some(s) && HandoverRun(cap, acts)
    requires t in s.tasks && t !in s.slot.cancelled && s.tasks[t].pc == Parked && Behind(s.sess, s.tasks[t])
    ensures s.sess.SignalOwed() || t in s.wake.picked || exists v :: v in s.wake.picked && PassesOn(s, v)
  {
    EveryRunKeepsInv(cap, acts);
    HandoverRunsKeepOneTaker(cap, acts);
    ParkedIsDue(s, t);
  }

  // ---- cancelled streams pass their notifications on ----

  predicate MovesCancelled(s: State, a: Action) {
    a.RunTask? && a.task in s.slot.cancelled
  }

  /** `b` is `a` after moves of cancelled streams alone. */
  ghost predicate OnlyCancelledMoved(a: State, b: State) {
    && b.sess == a.sess && b.slot.cancelled == a.slot.cancelled && b.slot.handlers == a.slot.handlers
    && b.tasks.Keys == a.tasks.Keys
    && forall t :: t in a.tasks && t !in a.slot.cancelled ==> b.tasks[t] == a.tasks[t]
  }

  /** Tasks registered with the signal. */
  function Unsettled(s: State): nat {
    |s.wake.picked| + |s.wake.waiters|
  }

  lemma RunCancelledIs(s: State, v: TaskId)
    requires s.wake.Valid() && PassesOn(s, v) && v in s.wake.picked
    ensures OnlyCancelledMoved(s, Run(s, v))
    ensures s.tasks[v].pc == Parked ==> Run(s, v).wake == s.wake && PassesOn(Run(s, v), v)
    ensures s.tasks[v].pc == ParkCancel ==> Unsettled(Run(s, v)) < Unsettled(s)
  {
    AbandonShrinks(s.wake, v);
  }

  lemma OnlyCancelledMovedTwice(a: State, b: State, c: State)
    requires OnlyCancelledMoved(a, b) && OnlyCancelledMoved(b, c)
    ensures OnlyCancelledMoved(a, c)
  {
  }

  /** One such stream passes its notification on, or leaves it stored. */
  lemma PassOne(s: State, v: TaskId) returns (acts: seq<Action>, s': State)
    requires s.wake.Valid() && PassesOn(s, v) && v in s.wake.picked
    ensures After(s, acts) == Some(s') && |acts| <= 2 && forall i :: 0 <= i < |acts| ==> acts[i] == RunTask(v)
    ensures OnlyCancelledMoved(s, s') && Unsettled(s') < Unsettled(s)
  {
    RunCancelledIs(s, v);
    AfterOne(s, RunTask(v));
    acts, s' := [RunTask(v)], Run(s, v);
    if s.tasks[v].pc == Parked {
      var m := s';
      RunCancelledIs(m, v);
      AfterTwo(s, RunTask(v), RunTask(v));
      acts, s' := [RunTask(v), RunTask(v)], Run(m, v);
      OnlyCancelledMovedTwice(s, m, s');
    }
  }

  lemma {:induction false} TasksKeepOneTaker(s: State, acts: seq<Action>)
    requires Inv(s) && OneTaker(s) && After(s, acts).Some? && forall i :: 0 <= i < |acts| ==> acts[i].RunTask?
    ensures Inv(After(s, acts).value) && OneTaker(After(s, acts).value)
  {
    if acts != [] {
      TasksKeepOneTaker(s, acts[..|acts| - 1]);
      StepKeepsInv(After(s, acts[..|acts| - 1]).value, acts[|acts| - 1]);
      StepKeepsOneTaker(After(s, acts[..|acts| - 1]).value, acts[|acts| - 1]);
    }
  }

  /**
   The cancelled streams that were picked pass their notifications on in at most two steps each,
   whatever the queue.
   */
  lemma {:induction false} CancelledPassOn(s: State) returns (acts: seq<Action>, s': State)
    requires Inv(s) && OneTaker(s)
    ensures After(s, acts) == Some(s') && forall i :: 0 <= i < |acts| ==> MovesCancelled(s, acts[i])
    ensures Inv(s') && OneTaker(s') && OnlyCancelledMoved(s, s')
    ensures forall v :: v in s'.wake.picked ==> !PassesOn(s', v)
    decreases Unsettled(s)
  {
    if v :| v in s.wake.picked && PassesOn(s, v) {
      var first, m := PassOne(s, v);
      TasksKeepOneTaker(s, first);
      var rest: seq<Action>;
      rest, s' := CancelledPassOn(m);
      AfterConcat(s, first, rest);
      OnlyCancelledMovedTwice(s, m, s');
      acts := first + rest;
      forall i | 0 <= i < |acts|
        ensures MovesCancelled(s, acts[i])
      {
        assert acts[i] == if i < |first| then first[i] else rest[i - |first|];
      }
    } else {
      acts, s' := [], s;
    }
  }

  /** After those steps a parked stream that is behind has been picked itself, or the reader is about to signal. */
  lemma ParkedIsWoken(cap: nat, run: seq<Action>, s: State, t: TaskId) returns (acts: seq<Action>, s': State)
    requires After(Init(cap), run) == Some(s) && HandoverRun(cap, run)
    requires t in s.tasks && t !in s.slot.cancelled && s.tasks[t].pc == Parked && Behind(s.sess, s.tasks[t])
    ensures After(s, acts) == Some(s') && forall i :: 0 <= i < |acts| ==> MovesCancelled(s, acts[i])
    ensures t in s'.tasks && s'.tasks[t] == s.tasks[t] && s'.sess == s.sess
    ensures s.sess.SignalOwed() || t in s'.wake.picked
  {
    EveryRunKeepsInv(cap, run);
    HandoverRunsKeepOneTaker(cap, run);
    acts, s' := CancelledPassOn(s);
    ParkedIsDue(s', t);
  }
}
