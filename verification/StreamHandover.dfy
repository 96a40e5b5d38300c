/**
 The condition under which `StreamWake.NoLostWakeup` holds is exact: from a moment at
 which nothing is being signalled, starting a stream beside one that can still take a
 notification can leave it waiting, with output to read, until something else is signalled.
 */
module StreamHandover {
  import opened Base
  import opened StreamProtocol
  import opened StreamWake
  import opened WakeSignal
  import R = RingHistory
  import Delivery = StreamDelivery
  import Slots = StreamSlot

  /** A stream that waits although there is something for it, with no notification anywhere. */
  ghost predicate Lost(s: State, t: TaskId) {
    && t in s.tasks && t !in s.slot.cancelled
    && s.tasks[t].pc == Parked && Behind(s.sess, s.tasks[t])
    && !s.sess.SignalOwed() && !s.wake.Pending()
  }

  /** A step of the reader or of a stream, not of a connection. */
  predicate NotAHandlers(a: Action) {
    a.Reader? || a.RunTask? || a.Offer?
  }

  predicate Threads(acts: seq<Action>) {
    forall i :: 0 <= i < |acts| ==> NotAHandlers(acts[i])
  }

  // ---- a live stream comes to look at the signal ----

  /** In its loop, and will look at the signal before the ring can end it. */
  predicate WillPoll(s: Session, k: Task) {
    && s.alive && !k.Ended()
    && (Lapped(s, k) ==> k.pc == CheckStatus || Parking(k.pc))
  }

  function StepsToPoll(s: Session, k: Task): nat {
    8 * SatSub(s.Head(), k.cursor) +
    match k.pc
    case ParkWoken => 0
    case ParkCancel => 1
    case Parked => 2
    case CheckStatus => 2
    case Read => 3
    case Top => 4
    case Begin => 5
    case SendOffer => 5
    case SendCancel => 6
    case _ => 0
  }

  /** What the task does next, not being cancelled and its sends accepted. */
  function Own(k: Task, s: Session): Task {
    if k.pc == SendOffer then OfferStep(k, Accepted) else TaskStep(k, s, false, false)
  }

  lemma OwnKeepsCursor(s: Session, k: Task)
    requires Delivery.SessionOk(s) && Delivery.CursorOk(s, k)
    ensures Delivery.CursorOk(s, Own(k, s))
  {
    if k.pc == SendOffer {
      Delivery.OfferStepCursor(s, k, Accepted);
    } else {
      Delivery.TaskStepCursor(s, k, false, false);
    }
  }

  lemma OwnComesNearer(s: Session, k: Task)
    requires Delivery.SessionOk(s) && Delivery.CursorOk(s, k) && WillPoll(s, k) && k.pc != ParkWoken
    ensures WillPoll(s, Own(k, s)) && StepsToPoll(s, Own(k, s)) < StepsToPoll(s, k)
  {
    if k.pc == Read && k.cursor < s.Head() {
      var h := s.ring.history;
      assert h[k.cursor..Min(|h|, k.cursor + STREAM_CHUNK)] != [];
    }
  }

  function OwnAct(s: State, t: TaskId): Action
    requires t in s.tasks
  {
    if s.tasks[t].pc == SendOffer then Offer(t, Accepted) else RunTask(t)
  }

  function With(s: State, t: TaskId, k: Task): State {
    s.(tasks := s.tasks[t := k])
  }

  lemma WithTwice(s: State, t: TaskId, a: Task, b: Task)
    ensures With(With(s, t, a), t, b) == With(s, t, b)
  {
    assert s.tasks[t := a][t := b] == s.tasks[t := b];
  }

  lemma OwnActIs(s: State, t: TaskId)
    requires t in s.tasks && t !in s.slot.cancelled && !s.tasks[t].Ended() && s.tasks[t].pc != ParkWoken
    ensures Can(s, OwnAct(s, t))
    ensures Step(s, OwnAct(s, t)) == With(s, t, Own(s.tasks[t], s.sess))
    ensures NotAHandlers(OwnAct(s, t))
  {
  }

  /** Moves of `t` alone bring it to where it next looks at the signal, and touch nothing shared. */
  lemma {:induction false} ComesToLook(s: State, t: TaskId) returns (acts: seq<Action>, k: Task)
    requires Delivery.SessionOk(s.sess) && t in s.tasks && t !in s.slot.cancelled
    requires Delivery.CursorOk(s.sess, s.tasks[t]) && WillPoll(s.sess, s.tasks[t])
    ensures After(s, acts) == Some(With(s, t, k)) && Threads(acts)
    ensures k.pc == ParkWoken && k.cursor <= s.sess.Head()
    decreases StepsToPoll(s.sess, s.tasks[t])
  {
    var now := s.tasks[t];
    if now.pc == ParkWoken {
      acts, k := [], now;
      assert s.tasks[t := now] == s.tasks;
    } else {
      var next := Own(now, s.sess);
      OwnActIs(s, t);
      OwnKeepsCursor(s.sess, now);
      OwnComesNearer(s.sess, now);
      var rest: seq<Action>;
      rest, k := ComesToLook(With(s, t, next), t);
      WithTwice(s, t, next, k);
      AfterCons(s, OwnAct(s, t), rest);
      acts := [OwnAct(s, t)] + rest;
    }
  }

  // ---- nothing but takers waits at the front ----

  /** Nothing stored and nobody picked. */
  predicate Still(n: Signal) {
    !n.permit && n.picked == {}
  }

  /** `b` is `a` but for cancelled streams that were waiting. */
  ghost predicate OnlyWaitersLeft(a: State, b: State) {
    && b.sess == a.sess && b.slot.cancelled == a.slot.cancelled && b.tasks.Keys == a.tasks.Keys
    && forall t :: t in a.tasks && !PassesOn(a, t) ==> b.tasks[t] == a.tasks[t]
  }

  lemma FirstLeaves(s: State) returns (acts: seq<Action>, s': State)
    requires s.wake.Valid() && Still(s.wake) && s.wake.waiters != [] && PassesOn(s, s.wake.waiters[0])
    ensures After(s, acts) == Some(s') && Threads(acts)
    ensures s'.wake == s.wake.(waiters := s.wake.waiters[1..])
    ensures OnlyWaitersLeft(s, s') && forall t :: PassesOn(s', t) ==> PassesOn(s, t)
  {
    var v := s.wake.waiters[0];
    var m := Run(s, v);
    AfterOne(s, RunTask(v));
    acts, s' := [RunTask(v)], m;
    if s.tasks[v].pc == Parked {
      AfterTwo(s, RunTask(v), RunTask(v));
      acts, s' := [RunTask(v), RunTask(v)], Run(m, v);
    }
  }

  lemma {:induction false} FrontIsATaker(s: State) returns (acts: seq<Action>, s': State)
    requires s.wake.Valid() && Still(s.wake)
    ensures After(s, acts) == Some(s') && Threads(acts)
    ensures s'.wake.Valid() && Still(s'.wake) && OnlyWaitersLeft(s, s')
    ensures s'.wake.waiters != [] ==> s'.wake.waiters[0] in s.wake.waiters && !PassesOn(s', s'.wake.waiters[0])
    decreases |s.wake.waiters|
  {
    if s.wake.waiters != [] && PassesOn(s, s.wake.waiters[0]) {
      var first, m := FirstLeaves(s);
      var rest: seq<Action>;
      rest, s' := FrontIsATaker(m);
      AfterConcat(s, first, rest);
      acts := first + rest;
    } else {
      acts, s' := [], s;
    }
  }

  // ---- something happens ----

  /** Output, or the exit if there is no more, and its one signal. */
  lemma SomethingHappens(s: State) returns (acts: seq<Action>, s': State)
    requires s.sess.reader == Reading || s.sess.reader == Reaping
    ensures After(s, acts) == Some(s') && Threads(acts)
    ensures s'.wake == NotifyOne(s.wake) && s'.slot == s.slot && s'.tasks == s.tasks && !s'.sess.SignalOwed()
    ensures forall k: Task :: Parking(k.pc) && k.cursor <= s.sess.Head() ==> Behind(s'.sess, k)
  {
    if s.sess.reader == Reading {
      AfterTwo(s, Reader(Store([0])), Reader(Notify));
      acts := [Reader(Store([0])), Reader(Notify)];
    } else {
      AfterTwo(s, Reader(SetStatus), Reader(Announce));
      acts := [Reader(SetStatus), Reader(Announce)];
    }
    s' := After(s, acts).value;
  }

  // ---- the notification goes elsewhere ----

  /** A picked stream that does not pass its notification on consumes it. */
  lemma {:induction false} TakesIt(s: State, v: TaskId) returns (acts: seq<Action>, s': State)
    requires v in s.wake.picked && v in s.tasks && Parking(s.tasks[v].pc) && !PassesOn(s, v)
    ensures After(s, acts) == Some(s') && Threads(acts)
    ensures s'.wake == s.wake.(picked := s.wake.picked - {v}) && s'.sess == s.sess && s'.slot == s.slot
    ensures s'.tasks.Keys == s.tasks.Keys && forall t :: t in s.tasks && t != v ==> s'.tasks[t] == s.tasks[t]
    decreases match s.tasks[v].pc case Parked => 2 case ParkCancel => 1 case _ => 0
  {
    var m := Run(s, v);
    if s.tasks[v].pc == ParkWoken {
      AfterOne(s, RunTask(v));
      acts, s' := [RunTask(v)], m;
    } else {
      var rest: seq<Action>;
      rest, s' := TakesIt(m, v);
      AfterCons(s, RunTask(v), rest);
      acts := [RunTask(v)] + rest;
    }
  }

  /** `k` looks, finds nothing and joins the queue. */
  lemma JoinsTheQueue(s: State, k: TaskId)
    requires Still(s.wake) && k in s.tasks && s.tasks[k].pc == ParkWoken && !s.wake.Registered(k)
    ensures Run(s, k) ==
            State(s.sess, s.wake.(waiters := s.wake.waiters + [k]), s.slot, s.tasks[k := s.tasks[k].(pc := Parked)])
  {
  }

  /** Something happens, and the first in the queue gets the notification of it. */
  lemma FirstIsPicked(s: State, v: TaskId, rest: seq<TaskId>) returns (acts: seq<Action>, s': State)
    requires Still(s.wake) && s.wake.waiters == [v] + rest
    requires s.sess.reader == Reading || s.sess.reader == Reaping
    requires v in s.tasks && Parking(s.tasks[v].pc) && !PassesOn(s, v)
    ensures After(s, acts) == Some(s') && Threads(acts)
    ensures Still(s'.wake) && s'.wake.waiters == rest && !s'.sess.SignalOwed() && s'.slot == s.slot
    ensures forall t :: t in s.tasks && t != v ==> t in s'.tasks && s'.tasks[t] == s.tasks[t]
    ensures forall k: Task :: Parking(k.pc) && k.cursor <= s.sess.Head() ==> Behind(s'.sess, k)
  {
    var happen, m := SomethingHappens(s);
    assert m.wake == Signal(false, rest, {v});
    var take: seq<Action>;
    take, s' := TakesIt(m, v);
    AfterConcat(s, happen, take);
    acts := happen + take;
  }

  /** `k` waits behind another taker, which gets the notification. */
  lemma WaitsBehind(s: State, v: TaskId, k: TaskId) returns (acts: seq<Action>, s': State)
    requires Still(s.wake) && s.wake.waiters != [] && s.wake.waiters[0] == v
    requires s.sess.reader == Reading || s.sess.reader == Reaping
    requires k in s.tasks && k !in s.slot.cancelled && s.tasks[k].pc == ParkWoken && s.tasks[k].cursor <= s.sess.Head()
    requires !s.wake.Registered(k) && v in s.tasks && Parking(s.tasks[v].pc) && !PassesOn(s, v)
    ensures After(s, acts) == Some(s') && Threads(acts) && Lost(s', k)
  {
    var m := Run(s, k);
    AfterOne(s, RunTask(k));
    JoinsTheQueue(s, k);
    assert m.wake.waiters == [v] + (s.wake.waiters[1..] + [k]);
    var rest: seq<Action>;
    rest, s' := FirstIsPicked(m, v, s.wake.waiters[1..] + [k]);
    AfterCons(s, RunTask(k), rest);
    acts := [RunTask(k)] + rest;
  }

  /** `u`, about to look at the signal, takes the stored notification before `k` looks. */
  lemma LooksLater(s: State, u: TaskId, k: TaskId) returns (acts: seq<Action>, s': State)
    requires Still(s.wake) && s.wake.waiters == []
    requires s.sess.reader == Reading || s.sess.reader == Reaping
    requires k in s.tasks && k !in s.slot.cancelled && s.tasks[k].pc == ParkWoken && s.tasks[k].cursor <= s.sess.Head()
    requires u in s.tasks && u != k && s.tasks[u].pc == ParkWoken
    ensures After(s, acts) == Some(s') && Threads(acts) && Lost(s', k)
  {
    var happen, one := SomethingHappens(s);
    var two := Run(one, u);
    assert two.wake == s.wake;
    AfterTwo(one, RunTask(u), RunTask(k));
    AfterConcat(s, happen, [RunTask(u), RunTask(k)]);
    acts, s' := happen + [RunTask(u), RunTask(k)], Run(two, k);
  }

  /** A taker that waits for nothing yet, not cancelled, can be brought to look at the signal. */
  lemma TakerWillPoll(s: State, u: TaskId)
    requires Inv(s) && s.sess.alive && Still(s.wake) && s.wake.waiters == []
    requires Delivery.Inv(s) && CanTake(s, u) && u !in s.slot.cancelled
    ensures WillPoll(s.sess, s.tasks[u]) && Delivery.CursorOk(s.sess, s.tasks[u])
  {
    assert Delivery.TaskOk(s.sess, s.tasks[u]);
    assert s.tasks[u].pc != CheckHead;
  }

  lemma FrontedIsLost(s: State, u: TaskId, k: TaskId) returns (acts: seq<Action>, s': State)
    requires Inv(s) && Delivery.Inv(s) && Still(s.wake)
    requires s.sess.alive && (s.sess.reader == Reading || s.sess.reader == Reaping)
    requires s.wake.waiters != [] ==> !PassesOn(s, s.wake.waiters[0])
    requires k in s.tasks && k !in s.slot.cancelled && s.tasks[k].pc == Begin && WillPoll(s.sess, s.tasks[k])
    requires CanTake(s, u) && u != k
    ensures After(s, acts) == Some(s') && Threads(acts) && Lost(s', k)
  {
    assert !s.wake.Registered(k);
    assert Delivery.TaskOk(s.sess, s.tasks[k]);
    var first, now := ComesToLook(s, k);
    var m := With(s, k, now);
    var rest: seq<Action>;
    if s.wake.waiters != [] {
      assert s.wake.Registered(s.wake.waiters[0]);
      rest, s' := WaitsBehind(m, s.wake.waiters[0], k);
    } else if u in s.slot.cancelled {
      rest, s' := LooksLater(m, u, k);
    } else {
      TakerWillPoll(s, u);
      var more, then_ := ComesToLook(m, u);
      var last: seq<Action>;
      last, s' := LooksLater(With(m, u, then_), u, k);
      AfterConcat(m, more, last);
      rest := more + last;
    }
    AfterConcat(s, first, rest);
    acts := first + rest;
  }

  lemma SpawnKeepsTakers(s: State, c: ConnId, u: TaskId)
    requires Slots.Ids(s.slot, s.tasks) && StartsTaker(s, c) && CanTake(s, u) && s.sess.alive
    ensures var k, m := s.slot.Handler(c).task, Handle(s, c);
            && u != k && CanTake(m, u) && m.sess == s.sess && m.wake == s.wake && m.slot.cancelled == s.slot.cancelled
            && k in m.tasks && m.tasks[k].pc == Begin && WillPoll(m.sess, m.tasks[k])
  {
  }

  lemma LeavingKeepsTakers(a: State, b: State, u: TaskId)
    requires OnlyWaitersLeft(a, b) && Still(a.wake) && Still(b.wake) && CanTake(a, u)
    ensures CanTake(b, u) && b.tasks[u] == a.tasks[u]
  {
    assert !PassesOn(a, u);
  }

  /**
   Wherever a stream that can take notifications is started while another one can, with
   nothing being signalled: steps of the reader and of streams alone can leave the new
   one waiting, behind, with no notification anywhere.
   */
  lemma StartedBesideATakerIsLost(cap: nat, before: seq<Action>, s: State, c: ConnId, u: TaskId)
    returns (acts: seq<Action>, s': State)
    requires After(Init(cap), before) == Some(s)
    requires s.sess.alive && !s.sess.SignalOwed() && !s.wake.Pending()
    requires StartsTaker(s, c) && CanTake(s, u)
    ensures After(s, [RunHandler(c)] + acts) == Some(s') && Threads(acts)
    ensures Lost(s', s.slot.Handler(c).task)
  {
    var k := s.slot.Handler(c).task;
    StartIsOk(cap, before, s, c);
    SpawnKeepsTakers(s, c, u);
    var one := Handle(s, c);
    var first, two := FrontIsATaker(one);
    RunKeepsInv(one, first);
    Delivery.RunKeepsInv(one, first);
    LeavingKeepsTakers(one, two, u);
    assert CanTake(one, k);
    LeavingKeepsTakers(one, two, k);
    var rest: seq<Action>;
    rest, s' := FrontedIsLost(two, u, k);
    AfterConcat(one, first, rest);
    AfterCons(s, RunHandler(c), first + rest);
    acts := first + rest;
  }

  lemma StartIsOk(cap: nat, before: seq<Action>, s: State, c: ConnId)
    requires After(Init(cap), before) == Some(s) && s.slot.Handler(c).Spawn?
    ensures Slots.Ids(s.slot, s.tasks) && Delivery.SessionOk(s.sess)
    ensures Inv(Handle(s, c)) && Delivery.Inv(Handle(s, c))
    ensures s.sess.alive && !s.sess.SignalOwed() ==> s.sess.reader == Reading || s.sess.reader == Reaping
  {
    EveryRunKeepsInv(cap, before);
    Delivery.EveryRunKeepsInv(cap, before);
    StepKeepsInv(s, RunHandler(c));
    Delivery.StepKeepsInv(s, RunHandler(c));
  }

  lemma {:induction false} ThreadsHandOver(cap: nat, before: seq<Action>, acts: seq<Action>)
    requires HandoverRun(cap, before) && Threads(acts)
    ensures HandoverRun(cap, before + acts)
  {
    if acts == [] {
      assert before + acts == before;
    } else {
      ThreadsHandOver(cap, before, acts[..|acts| - 1]);
      assert (before + acts)[..|before + acts| - 1] == before + acts[..|acts| - 1];
    }
  }

  lemma StartHandsOver(cap: nat, before: seq<Action>, s: State, c: ConnId, acts: seq<Action>)
    requires After(Init(cap), before) == Some(s) && HandoverRun(cap, before)
    requires HandsOver(s, RunHandler(c)) && Threads(acts)
    ensures HandoverRun(cap, before + [RunHandler(c)] + acts)
  {
    assert (before + [RunHandler(c)])[..|before|] == before;
    ThreadsHandOver(cap, before + [RunHandler(c)], acts);
  }

  lemma LostIsNotDue(cap: nat, run: seq<Action>, s: State, t: TaskId)
    requires After(Init(cap), run) == Some(s) && HandoverRun(cap, run)
    ensures !Lost(s, t)
  {
    if Lost(s, t) {
      NoLostWakeup(cap, run, s, t);
    }
  }

  /** Handing over, no stream is lost by the reader's and the streams' own steps that follow. */
  lemma HandedOverIsNeverLost(cap: nat, before: seq<Action>, s: State, c: ConnId, acts: seq<Action>, s': State,
                              t: TaskId)
    requires After(Init(cap), before) == Some(s) && HandoverRun(cap, before)
    requires HandsOver(s, RunHandler(c)) && Threads(acts) && After(s, [RunHandler(c)] + acts) == Some(s')
    ensures !Lost(s', t)
  {
    AfterConcat(Init(cap), before, [RunHandler(c)] + acts);
    Regroup(before, [RunHandler(c)], acts);
    StartHandsOver(cap, before, s, c, acts);
    LostIsNotDue(cap, before + [RunHandler(c)] + acts, s', t);
  }

  /**
   Exactly: after a run of handovers, with nothing being signalled, starting a stream that can
   take notifications is safe from lost wakeups if and only if no other stream can take one.
   */
  lemma StartIsSafeIff(cap: nat, before: seq<Action>, s: State, c: ConnId)
    requires After(Init(cap), before) == Some(s) && HandoverRun(cap, before)
    requires s.sess.alive && !s.sess.SignalOwed() && !s.wake.Pending() && StartsTaker(s, c)
    ensures (forall u :: !CanTake(s, u))
            <==> forall acts, s', t | Threads(acts) && After(s, [RunHandler(c)] + acts) == Some(s') :: !Lost(s', t)
  {
    if u :| CanTake(s, u) {
      var acts, s' := StartedBesideATakerIsLost(cap, before, s, c, u);
    } else {
      forall acts, s', t | Threads(acts) && After(s, [RunHandler(c)] + acts) == Some(s')
        ensures !Lost(s', t)
      {
        HandedOverIsNeverLost(cap, before, s, c, acts, s', t);
      }
    }
  }
}
