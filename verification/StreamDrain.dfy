/**
 A dead session drains. A stream that is not cancelled, on a run of handovers, never
 waits once the cancelled streams have passed their notifications on: it delivers what
 the ring still holds and finishes.
 */
module StreamDrain {
  import opened Base
  import opened StreamProtocol
  import opened StreamWake
  import opened WakeSignal
  import R = RingHistory
  import Delivery = StreamDelivery

  function Rank(pc: TaskPc, behind: bool): nat {
    match pc
    case Done => 0
    case Leave => 1
    case Forget => 2
    case CheckHead => if behind then 9 else 3
    case CheckStatus => if behind then 10 else 4
    case Read => 5
    case Top => 6
    case Begin => 7
    case SendOffer => 7
    case ParkWoken => 7
    case SendCancel => 8
    case ParkCancel => 8
    case Parked => 9
  }

  /** Bytes still to read, weighted above what a round of the loop takes. */
  function Measure(s: Session, k: Task): nat {
    16 * SatSub(s.Head(), k.cursor) + Rank(k.pc, k.cursor < s.Head())
  }

  /** A task's own move when no send is refused and it is not cancelled. */
  function Move(k: Task, s: Session, woken: bool): Task {
    if k.pc == SendOffer then OfferStep(k, Accepted) else TaskStep(k, s, false, woken)
  }

  /** On a dead session every move brings a task nearer its end, provided it never polls in vain. */
  lemma DeadMoveProgress(s: Session, k: Task, woken: bool)
    requires Delivery.SessionOk(s) && Delivery.CursorOk(s, k) && !s.alive && k.pc != Done
    requires k.pc == ParkWoken ==> woken
    ensures Measure(s, Move(k, s, woken)) < Measure(s, k)
  {
    if k.pc == Read && k.cursor < s.Head() {
      var h := s.ring.history;
      assert h[k.cursor..Min(|h|, k.cursor + STREAM_CHUNK)] != [];
    }
  }

  /** The client has every byte there will ever be and, if it attached to a live session, knows of the exit. */
  ghost predicate Finished(s: Session, k: Task) {
    k.DeliveredEnd() == s.Head() && (k.liveAttach ==> Exited(s.Head()) in k.notices)
  }

  /** How a stream ended: complete if the ring still covers its cursor, else evicted at its delivered end. */
  ghost predicate Outcome(s: Session, k: Task) {
    k.Ended() ==> if s.ring.Tail() <= k.cursor then Finished(s, k) else Evicted(k.DeliveredEnd()) in k.notices
  }

  /**
   When no send is refused a task leaves its loop only from a read that finds a gap, or caught up
   with a dead session.
   */
  lemma LeavesLoopFrom(s: Session, k: Task, woken: bool)
    requires Delivery.SessionOk(s) && Delivery.CursorOk(s, k) && !k.Ended() && Move(k, s, woken).Ended()
    ensures k.pc == CheckHead || (k.pc == Read && k.cursor < s.ring.Tail())
  {
  }

  lemma MoveKeepsOutcome(s: Session, k: Task, woken: bool)
    requires Delivery.SessionOk(s) && Delivery.CursorOk(s, k) && Outcome(s, k)
    ensures Outcome(s, Move(k, s, woken))
  {
    var k' := Move(k, s, woken);
    if k.Ended() {
      assert k' == k.(pc := k'.pc);
    } else if k'.Ended() {
      LeavesLoopFrom(s, k, woken);
      assert k'.frames == k.frames && k'.cursor == k.cursor == k.DeliveredEnd();
      assert k'.notices == k.notices || k'.notices[|k'.notices| - 1] in k'.notices;
    }
  }

  /** The task comes to the top of its loop again, where it reports drops, before it finds that all is over. */
  predicate LooksAgain(s: Session, k: Task) {
    !k.Ended() && (k.cursor < s.Head() || (k.pc != Read && k.pc != CheckStatus && k.pc != CheckHead))
  }

  /** Every drop has been reported or will be. */
  predicate TellsAll(s: Session, k: Task) {
    k.reported == s.drops || LooksAgain(s, k)
  }

  lemma MoveKeepsTelling(s: Session, k: Task, woken: bool)
    requires Delivery.SessionOk(s) && Delivery.CursorOk(s, k) && !s.alive && s.ring.Tail() <= k.cursor
    requires k.pc == ParkWoken ==> woken
    ensures TellsAll(s, Move(k, s, woken)) <==> TellsAll(s, k)
  {
    if k.pc == Read && k.cursor < s.Head() {
      var h := s.ring.history;
      assert h[k.cursor..Min(|h|, k.cursor + STREAM_CHUNK)] != [];
    }
  }

  /**
   A stream still in its loop and not cancelled, of a session whose reader thread has
   finished, with no notification in the hands of a cancelled stream. Others may be running.
   */
  ghost predicate Draining(s: State, t: TaskId) {
    && Inv(s) && OneTaker(s) && Delivery.Inv(s)
    && s.sess.reader == Gone
    && t in s.tasks && t !in s.slot.cancelled
    && forall v :: v in s.wake.picked ==> !PassesOn(s, v)
  }

  /** What a draining state says of the task: it never polls the signal in vain. */
  lemma DrainingTask(s: State, t: TaskId)
    requires Draining(s, t)
    ensures Delivery.SessionOk(s.sess) && Delivery.CursorOk(s.sess, s.tasks[t]) && !s.sess.alive
    ensures s.tasks[t].pc == ParkWoken ==> Ready(s.wake, t)
  {
    assert Delivery.TaskOk(s.sess, s.tasks[t]);
    if s.tasks[t].pc == ParkWoken && t !in s.wake.picked {
      assert CanTake(s, t);
    }
  }

  /** The task's next step when every send is accepted. */
  function NextMove(s: State, t: TaskId): Action
    requires t in s.tasks
  {
    if s.tasks[t].pc == SendOffer then Offer(t, Accepted) else RunTask(t)
  }

  lemma NextMoveIs(s: State, t: TaskId)
    requires t in s.tasks && s.tasks[t].pc != Done && t !in s.slot.cancelled
    ensures var s' := Step(s, NextMove(s, t));
            && s'.tasks == s.tasks[t := Move(s.tasks[t], s.sess, Ready(s.wake, t))]
            && s'.sess == s.sess && s'.slot.cancelled == s.slot.cancelled
  {
  }

  lemma MoveKeepsPicks(s: State, t: TaskId)
    requires Draining(s, t) && s.tasks[t].pc != Done
    ensures var s' := Step(s, NextMove(s, t));
            forall v :: v in s'.wake.picked ==> v in s.wake.picked && !PassesOn(s', v)
  {
    var s' := Step(s, NextMove(s, t));
    NextMoveIs(s, t);
    assert s'.wake.picked <= s.wake.picked;
    forall v | v in s'.wake.picked
      ensures !PassesOn(s', v)
    {
      assert !PassesOn(s, v);
    }
  }

  lemma MoveKeepsDraining(s: State, t: TaskId)
    requires Draining(s, t) && s.tasks[t].pc != Done
    ensures Draining(Step(s, NextMove(s, t)), t)
  {
    StepKeepsInv(s, NextMove(s, t));
    StepKeepsOneTaker(s, NextMove(s, t));
    Delivery.StepKeepsInv(s, NextMove(s, t));
    NextMoveIs(s, t);
    MoveKeepsPicks(s, t);
  }

  lemma MoveGoesOn(s: Session, k: Task, woken: bool)
    requires Delivery.SessionOk(s) && Delivery.CursorOk(s, k)
    ensures k.cursor <= Move(k, s, woken).cursor && k.start == Move(k, s, woken).start
  {
  }

  predicate MovesOwn(a: Action, t: TaskId) {
    a == RunTask(t) || a == Offer(t, Accepted)
  }

  lemma OneMove(s: State, t: TaskId) returns (a: Action, m: State)
    requires t in s.tasks && t !in s.slot.cancelled && s.tasks[t].pc != Done
    ensures After(s, [a]) == Some(m) && MovesOwn(a, t) && m == Step(s, NextMove(s, t))
  {
    NextMoveIs(s, t);
    a, m := NextMove(s, t), Step(s, NextMove(s, t));
    AfterOne(s, a);
  }

  /** Whatever every move keeps while it brings `t` nearer its end, holds when `t` is done. */
  lemma {:induction false} MovesToTheEnd(keeps: State -> bool, s: State, t: TaskId)
    returns (acts: seq<Action>, s': State)
    requires keeps(s) && forall m :: keeps(m) ==> t in m.tasks && t !in m.slot.cancelled
    requires forall m | keeps(m) && m.tasks[t].pc != Done ::
               var m' := Step(m, NextMove(m, t));
               keeps(m') && Measure(m'.sess, m'.tasks[t]) < Measure(m.sess, m.tasks[t])
    ensures After(s, acts) == Some(s') && |acts| <= Measure(s.sess, s.tasks[t])
    ensures forall i :: 0 <= i < |acts| ==> MovesOwn(acts[i], t)
    ensures keeps(s') && s'.tasks[t].pc == Done
    decreases Measure(s.sess, s.tasks[t])
  {
    if s.tasks[t].pc == Done {
      acts, s' := [], s;
    } else {
      var a, m := OneMove(s, t);
      var rest: seq<Action>;
      rest, s' := MovesToTheEnd(keeps, m, t);
      AfterConcat(s, [a], rest);
      acts := [a] + rest;
    }
  }

  /** `m` is on the way from `s` to the end of `t`. */
  ghost predicate OnTheWay(s: State, m: State, t: TaskId)
    requires t in s.tasks
  {
    && Draining(m, t) && m.sess == s.sess && Outcome(m.sess, m.tasks[t])
    && s.tasks[t].cursor <= m.tasks[t].cursor && s.tasks[t].start == m.tasks[t].start
    && (s.sess.ring.Tail() <= s.tasks[t].cursor ==> (TellsAll(m.sess, m.tasks[t]) <==> TellsAll(s.sess, s.tasks[t])))
  }

  lemma KeepsOnTheWay(s: State, m: State, t: TaskId)
    requires t in s.tasks && OnTheWay(s, m, t) && m.tasks[t].pc != Done
    ensures var m' := Step(m, NextMove(m, t));
            OnTheWay(s, m', t) && Measure(m'.sess, m'.tasks[t]) < Measure(m.sess, m.tasks[t])
  {
    MoveKeepsDraining(m, t);
    NextMoveIs(m, t);
    DrainingTask(m, t);
    DeadMoveProgress(m.sess, m.tasks[t], Ready(m.wake, t));
    MoveKeepsOutcome(m.sess, m.tasks[t], Ready(m.wake, t));
    MoveGoesOn(m.sess, m.tasks[t], Ready(m.wake, t));
    if s.sess.ring.Tail() <= s.tasks[t].cursor {
      MoveKeepsTelling(m.sess, m.tasks[t], Ready(m.wake, t));
    }
  }

  /**
   Such a stream, its sends accepted, is done within `Measure` steps of its own: it never
   waits. If the ring still covers its cursor it has by then delivered everything up to the
   final head and sent the exit; otherwise it was evicted at the exact end of what it delivered.
   */
  lemma DeadStreamDrains(s: State, t: TaskId) returns (acts: seq<Action>, s': State)
    requires Draining(s, t) && Outcome(s.sess, s.tasks[t])
    ensures After(s, acts) == Some(s') && |acts| <= Measure(s.sess, s.tasks[t])
    ensures forall i :: 0 <= i < |acts| ==> MovesOwn(acts[i], t)
    ensures OnTheWay(s, s', t) && s'.tasks[t].pc == Done
  {
    var keeps := m => OnTheWay(s, m, t);
    forall m | keeps(m) && m.tasks[t].pc != Done
      ensures var m' := Step(m, NextMove(m, t));
               keeps(m') && Measure(m'.sess, m'.tasks[t]) < Measure(m.sess, m.tasks[t])
    {
      KeepsOnTheWay(s, m, t);
    }
    acts, s' := MovesToTheEnd(keeps, s, t);
  }

  lemma FinishedIsAll(s: Session, k: Task)
    requires Delivery.CursorOk(s, k) && Outcome(s, k) && k.pc == Done && s.ring.Tail() <= k.cursor
    ensures k.start <= s.Head() && Delivery.Payload(k.frames) == s.ring.history[k.start..]
    ensures k.liveAttach ==> Exited(s.Head()) in k.notices
  {
    Delivery.ContiguousPayload(s.ring.history, k.start, k.frames, k.DeliveredEnd());
    assert s.ring.history[k.start..s.Head()] == s.ring.history[k.start..];
  }

  lemma OnTheWayIs(s: State, m: State, t: TaskId)
    requires t in s.tasks && OnTheWay(s, m, t)
    ensures t in m.tasks && m.sess == s.sess && Delivery.CursorOk(s.sess, m.tasks[t])
  {
    assert Delivery.TaskOk(m.sess, m.tasks[t]);
  }

  /**
   The same, for a stream still in its loop whose cursor the ring covers: the client ends up with
   all of the history, and has been told of every drop exactly if the stream came to look once more.
   */
  lemma DeadStreamDeliversTheRest(s: State, t: TaskId) returns (acts: seq<Action>, s': State)
    requires Draining(s, t) && !s.tasks[t].Ended() && s.sess.ring.Tail() <= s.tasks[t].cursor
    ensures After(s, acts) == Some(s') && forall i :: 0 <= i < |acts| ==> MovesOwn(acts[i], t)
    ensures t in s'.tasks
    ensures var k := s'.tasks[t];
            && k.pc == Done && k.start <= s.sess.Head()
            && Delivery.Payload(k.frames) == s.sess.ring.history[k.start..]
            && (k.liveAttach ==> Exited(s.sess.Head()) in k.notices)
            && (k.reported == s.sess.drops <==> TellsAll(s.sess, s.tasks[t]))
  {
    acts, s' := DeadStreamDrains(s, t);
    OnTheWayIs(s, s', t);
    FinishedIsAll(s.sess, s'.tasks[t]);
  }

  /**
   On every run of handovers, however many streams have been taken over: once the reader
   thread of a dead session has finished, a stream that is not cancelled and whose cursor
   the ring covers needs no step but its own and those of cancelled streams to deliver all
   of the history from its start and, if attached live, the exit; and every drop exactly if
   it has not looked for the last time.
   */
  lemma DeadSessionsAreDelivered(cap: nat, run: seq<Action>, s: State, t: TaskId) returns (acts: seq<Action>, s': State)
    requires After(Init(cap), run) == Some(s) && HandoverRun(cap, run) && s.sess.reader == Gone
    requires t in s.tasks && t !in s.slot.cancelled && !s.tasks[t].Ended() && s.sess.ring.Tail() <= s.tasks[t].cursor
    ensures After(s, acts) == Some(s') && t in s'.tasks
    ensures forall i :: 0 <= i < |acts| ==> MovesCancelled(s, acts[i]) || MovesOwn(acts[i], t)
    ensures var k := s'.tasks[t];
            && k.pc == Done && k.start <= s.sess.Head()
            && Delivery.Payload(k.frames) == s.sess.ring.history[k.start..]
            && (k.liveAttach ==> Exited(s.sess.Head()) in k.notices)
            && (k.reported == s.sess.drops <==> TellsAll(s.sess, s.tasks[t]))
  {
    EveryRunKeepsInv(cap, run);
    HandoverRunsKeepOneTaker(cap, run);
    Delivery.EveryRunKeepsInv(cap, run);
    var first, m := CancelledPassOn(s);
    Delivery.RunKeepsInv(s, first);
    var rest: seq<Action>;
    rest, s' := DeadStreamDeliversTheRest(m, t);
    AfterConcat(s, first, rest);
    acts := first + rest;
    forall i | 0 <= i < |acts|
      ensures MovesCancelled(s, acts[i]) || MovesOwn(acts[i], t)
    {
      assert acts[i] == if i < |first| then first[i] else rest[i - |first|];
    }
  }
}
