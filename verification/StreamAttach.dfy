/**
 What an attach comes to, whoever acts between its steps: a refusal, or a stream that
 starts where the decision put it, by a head and a later tail of the session; and live, so
 that its client will be told of the exit, exactly if the session had not exited yet.
 */
module StreamAttach {
  import opened Base
  import opened StreamProtocol
  import opened WakeSignal
  import Slots = StreamSlot
  import Reports = StreamReports

  // ---- where a stream starts ----

  /** The head was `head` at some moment of the run. */
  ghost predicate HeadSeen(s: State, acts: seq<Action>, head: nat) {
    exists i :: 0 <= i <= |acts| && HeadAt(s, acts, i, head)
  }

  ghost predicate HeadAt(s: State, acts: seq<Action>, i: nat, head: nat)
    requires i <= |acts|
  {
    After(s, acts[..i]).Some? && After(s, acts[..i]).value.sess.Head() == head
  }

  /** `reply` is the decision on a head of the run and the tail at that moment or a later one. */
  ghost predicate Decided(s: State, acts: seq<Action>, mode: AttachMode, reply: AttachReply) {
    exists i, head :: 0 <= i <= |acts| && DecidedAt(s, acts, i, head, mode, reply)
  }

  ghost predicate DecidedAt(s: State, acts: seq<Action>, i: nat, head: nat, mode: AttachMode, reply: AttachReply)
    requires i <= |acts|
  {
    && After(s, acts[..i]).Some? && HeadSeen(s, acts[..i], head)
    && reply == DecideAttach(mode, head, After(s, acts[..i]).value.sess.ring.Tail())
  }

  lemma HeadSeenLater(s: State, acts: seq<Action>, a: Action, head: nat)
    requires HeadSeen(s, acts, head)
    ensures HeadSeen(s, acts + [a], head)
  {
    var i :| 0 <= i <= |acts| && HeadAt(s, acts, i, head);
    assert (acts + [a])[..i] == acts[..i];
    assert HeadAt(s, acts + [a], i, head);
  }

  lemma HeadSeenNow(s: State, acts: seq<Action>)
    requires After(s, acts).Some?
    ensures HeadSeen(s, acts, After(s, acts).value.sess.Head())
  {
    assert acts[..|acts|] == acts;
    assert HeadAt(s, acts, |acts|, After(s, acts).value.sess.Head());
  }

  lemma DecidedLater(s: State, acts: seq<Action>, a: Action, mode: AttachMode, reply: AttachReply)
    requires Decided(s, acts, mode, reply)
    ensures Decided(s, acts + [a], mode, reply)
  {
    var i, head :| 0 <= i <= |acts| && DecidedAt(s, acts, i, head, mode, reply);
    assert (acts + [a])[..i] == acts[..i];
    assert DecidedAt(s, acts + [a], i, head, mode, reply);
  }

  lemma DecidedNow(s: State, acts: seq<Action>, head: nat, mode: AttachMode)
    requires After(s, acts).Some? && HeadSeen(s, acts, head)
    ensures Decided(s, acts, mode, DecideAttach(mode, head, After(s, acts).value.sess.ring.Tail()))
  {
    assert acts[..|acts|] == acts;
    assert DecidedAt(s, acts, |acts|, head, mode, DecideAttach(mode, head, After(s, acts).value.sess.ring.Tail()));
  }

  function StartOf(h: HandlerPc): Option<nat> {
    match h
    case Install(at) => Some(at)
    case Evict(_, at, _) => Some(at)
    case Record(_, at) => Some(at)
    case AskAlive(_, at) => Some(at)
    case Spawn(_, at, _) => Some(at)
    case _ => None
  }

  /** The connection has a stream it had not, which starts at `at`. */
  ghost predicate Started(s: State, m: State, c: ConnId, at: nat) {
    exists t :: t in m.tasks && t !in s.tasks && m.tasks[t].conn == c && m.tasks[t].start == at
  }

  /** The attach has come to an end: refused, or with a stream where it was decided. */
  ghost predicate Answered(s: State, acts: seq<Action>, m: State, c: ConnId, mode: AttachMode) {
    exists reply :: Decided(s, acts, mode, reply) && (reply.Start? ==> Started(s, m, c, reply.at))
  }

  /** Where an attach asked for in `s` can stand after `acts`. */
  ghost predicate Follows(s: State, acts: seq<Action>, m: State, c: ConnId, mode: AttachMode) {
    var h := m.slot.Handler(c);
    && (h.AskHead? ==> h.mode == mode)
    && (h.AskTail? ==> h.mode == mode && HeadSeen(s, acts, h.head))
    && (StartOf(h).Some? ==> Decided(s, acts, mode, Start(StartOf(h).value)))
    && (h == Idle ==> Answered(s, acts, m, c, mode))
    && (h.AskHead? || h.AskTail? || StartOf(h).Some? || h == Idle)
  }

  lemma TasksGoOn(m: State, a: Action, t: TaskId)
    requires Slots.Ids(m.slot, m.tasks) && Can(m, a) && t in m.tasks
    ensures t in Step(m, a).tasks
    ensures Step(m, a).tasks[t].conn == m.tasks[t].conn && Step(m, a).tasks[t].start == m.tasks[t].start
  {
  }

  lemma StartedLater(s: State, m: State, a: Action, c: ConnId, at: nat)
    requires Started(s, m, c, at) && Slots.Ids(m.slot, m.tasks) && Can(m, a)
    ensures Started(s, Step(m, a), c, at)
  {
    var t :| t in m.tasks && t !in s.tasks && m.tasks[t].conn == c && m.tasks[t].start == at;
    TasksGoOn(m, a, t);
  }

  lemma AnsweredLater(s: State, acts: seq<Action>, m: State, a: Action, c: ConnId, mode: AttachMode)
    requires Answered(s, acts, m, c, mode) && Slots.Ids(m.slot, m.tasks) && Can(m, a)
    ensures Answered(s, acts + [a], Step(m, a), c, mode)
  {
    var reply :| Decided(s, acts, mode, reply) && (reply.Start? ==> Started(s, m, c, reply.at));
    DecidedLater(s, acts, a, mode, reply);
    if reply.Start? {
      StartedLater(s, m, a, c, reply.at);
    }
  }

  lemma OthersWait(m: State, a: Action, c: ConnId)
    requires Can(m, a) && a != RunHandler(c) && !(a.Request? && a.conn == c)
    ensures Step(m, a).slot.Handler(c) == m.slot.Handler(c)
  {
    if a.RunHandler? {
      Slots.OthersUntouched(m.slot, m.sess, a.conn, c);
    }
  }

  lemma OthersKeepFollowing(s: State, acts: seq<Action>, m: State, a: Action, c: ConnId, mode: AttachMode)
    requires Follows(s, acts, m, c, mode) && Slots.Ids(m.slot, m.tasks) && Can(m, a)
    requires a != RunHandler(c) && !(a.Request? && a.conn == c)
    ensures Follows(s, acts + [a], Step(m, a), c, mode)
  {
    OthersWait(m, a, c);
    var h := m.slot.Handler(c);
    if h.AskTail? {
      HeadSeenLater(s, acts, a, h.head);
    }
    if StartOf(h).Some? {
      DecidedLater(s, acts, a, mode, Start(StartOf(h).value));
    }
    if h == Idle {
      AnsweredLater(s, acts, m, a, c, mode);
    }
  }

  /** What a handler's own step makes of its start: decides it, carries it on, or starts the stream there. */
  lemma OwnStep(m: State, c: ConnId)
    requires Can(m, RunHandler(c))
    ensures var h, m' := m.slot.Handler(c), Handle(m, c);
            var h' := m'.slot.Handler(c);
            && (h.AskHead? ==> h' == AskTail(h.mode, m.sess.Head()))
            && (h.AskTail? ==>
                  var reply := DecideAttach(h.mode, h.head, m.sess.ring.Tail());
                  if reply.Start? then h' == Install(reply.at) else h' == Idle && m'.tasks == m.tasks)
            && (StartOf(h).Some? && !h.Spawn? ==> StartOf(h') == StartOf(h))
            && (h.Spawn? ==> h' == Idle && m'.tasks == m.tasks[h.task := NewTask(c, h.at, h.live)])
  {
  }

  lemma OwnKeepsFollowing(s: State, acts: seq<Action>, m: State, c: ConnId, mode: AttachMode)
    requires After(s, acts) == Some(m) && Follows(s, acts, m, c, mode) && Slots.Ids(m.slot, m.tasks)
    requires Can(m, RunHandler(c)) && s.tasks.Keys <= m.tasks.Keys
    ensures Follows(s, acts + [RunHandler(c)], Handle(m, c), c, mode)
  {
    var a, h, m' := RunHandler(c), m.slot.Handler(c), Handle(m, c);
    OwnStep(m, c);
    if h.AskHead? {
      HeadSeenNow(s, acts);
      HeadSeenLater(s, acts, a, m.sess.Head());
    } else if h.AskTail? {
      var reply := DecideAttach(mode, h.head, m.sess.ring.Tail());
      DecidedNow(s, acts, h.head, mode);
      DecidedLater(s, acts, a, mode, reply);
    } else {
      DecidedLater(s, acts, a, mode, Start(StartOf(h).value));
      if h.Spawn? {
        assert h.task in m'.tasks && h.task !in s.tasks;
        assert Started(s, m', c, h.at);
      }
    }
  }

  lemma {:induction false} RunKeepsTasks(s: State, acts: seq<Action>)
    requires After(s, acts).Some?
    ensures s.tasks.Keys <= After(s, acts).value.tasks.Keys
  {
    if acts != [] {
      RunKeepsTasks(s, acts[..|acts| - 1]);
    }
  }

  /** Nothing of what happens concerns the connection's handler. */
  predicate Elsewhere(acts: seq<Action>, c: ConnId) {
    forall i :: 0 <= i < |acts| ==> acts[i] != RunHandler(c) && !(acts[i].Request? && acts[i].conn == c)
  }

  lemma {:induction false} WaitsMeanwhile(s: State, acts: seq<Action>, c: ConnId)
    requires After(s, acts).Some? && Elsewhere(acts, c)
    ensures After(s, acts).value.slot.Handler(c) == s.slot.Handler(c)
  {
    if acts != [] {
      WaitsMeanwhile(s, acts[..|acts| - 1], c);
      OthersWait(After(s, acts[..|acts| - 1]).value, acts[|acts| - 1], c);
    }
  }

  /**
   On every run, whoever acts between the handler's steps: an attach that is asked for is
   answered by the decision on a head of the session and a tail not older, and when that is a
   start, with a new stream of the connection which starts exactly there.
   */
  lemma AttachIsAnsweredAsDecided(cap: nat, before: seq<Action>, s: State, c: ConnId, mode: AttachMode,
                                  acts: seq<Action>, s': State)
    requires After(Init(cap), before) == Some(s) && Can(s, Request(c, Attach(mode)))
    requires After(s, [Request(c, Attach(mode))] + acts) == Some(s')
    requires forall i :: 0 <= i < |acts| ==> !(acts[i].Request? && acts[i].conn == c)
    ensures Follows(Step(s, Request(c, Attach(mode))), acts, s', c, mode)
    ensures s'.slot.Handler(c) == Idle ==> Answered(Step(s, Request(c, Attach(mode))), acts, s', c, mode)
  {
    Reports.RunKeepsIds(Init(cap), before);
    Slots.RequestKeepsIds(s.slot, s.tasks, c, Attach(mode));
    AfterCons(s, Request(c, Attach(mode)), acts);
    AttachFollows(Step(s, Request(c, Attach(mode))), acts, c, mode);
  }

  lemma {:induction false} AttachFollows(s: State, acts: seq<Action>, c: ConnId, mode: AttachMode)
    requires Slots.Ids(s.slot, s.tasks) && s.slot.Handler(c) == AskHead(mode) && After(s, acts).Some?
    requires forall i :: 0 <= i < |acts| ==> !(acts[i].Request? && acts[i].conn == c)
    ensures Follows(s, acts, After(s, acts).value, c, mode)
  {
    if acts != [] {
      var init, a := acts[..|acts| - 1], acts[|acts| - 1];
      AttachFollows(s, init, c, mode);
      Reports.RunKeepsIds(s, init);
      RunKeepsTasks(s, init);
      var m := After(s, init).value;
      assert init + [a] == acts;
      if a == RunHandler(c) {
        OwnKeepsFollowing(s, init, m, c, mode);
      } else {
        OthersKeepFollowing(s, init, m, a, c, mode);
      }
    }
  }

  // ---- whether it is live ----

  /** While the session lives every stream was attached live. */
  ghost predicate LiveOk(s: State) {
    s.sess.alive ==>
      && (forall t :: t in s.tasks ==> s.tasks[t].liveAttach)
      && (forall c :: s.slot.Handler(c).Spawn? ==> s.slot.Handler(c).live)
  }

  /** A handler about to start a stream was so before, or has just asked whether the session lives. */
  lemma AboutToSpawn(m: State, a: Action, c: ConnId)
    requires Can(m, a) && Step(m, a).slot.Handler(c).Spawn?
    ensures m.slot.Handler(c) == Step(m, a).slot.Handler(c) || Step(m, a).slot.Handler(c).live == m.sess.alive
  {
    match a {
      case RunHandler(d) =>
        if d != c {
          Slots.OthersUntouched(m.slot, m.sess, d, c);
        }
      case Request(d, req) => assert !Entry(req).Spawn?;
      case _ =>
    }
  }

  lemma StepKeepsLive(s: State, a: Action)
    requires LiveOk(s) && Can(s, a)
    ensures LiveOk(Step(s, a))
  {
    var s' := Step(s, a);
    forall c | s'.sess.alive && s'.slot.Handler(c).Spawn?
      ensures s'.slot.Handler(c).live
    {
      AboutToSpawn(s, a, c);
    }
  }

  lemma {:induction false} LiveSessionsAttachLive(cap: nat, acts: seq<Action>)
    requires After(Init(cap), acts).Some?
    ensures LiveOk(After(Init(cap), acts).value)
  {
    if acts != [] {
      LiveSessionsAttachLive(cap, acts[..|acts| - 1]);
      StepKeepsLive(After(Init(cap), acts[..|acts| - 1]).value, acts[|acts| - 1]);
    }
  }

  /** Started, or about to be, by `s`. */
  ghost predicate Early(s: State, t: TaskId) {
    t in s.tasks || exists c :: s.slot.Handler(c).Spawn? && s.slot.Handler(c).task == t
  }

  /** Streams later than `s` are not live. */
  ghost predicate LateOk(s: State, m: State) {
    && !m.sess.alive
    && (forall t :: t in m.tasks && !Early(s, t) ==> !m.tasks[t].liveAttach)
    && (forall c :: m.slot.Handler(c).Spawn? && !Early(s, m.slot.Handler(c).task) ==> !m.slot.Handler(c).live)
  }

  lemma StepKeepsLate(s: State, m: State, a: Action)
    requires LateOk(s, m) && Can(m, a)
    ensures LateOk(s, Step(m, a))
  {
    var m' := Step(m, a);
    forall c | m'.slot.Handler(c).Spawn? && !Early(s, m'.slot.Handler(c).task)
      ensures !m'.slot.Handler(c).live
    {
      AboutToSpawn(m, a, c);
    }
  }

  /** Once the session has exited, a stream whose handler had not asked by then is told of no exit. */
  lemma {:induction false} LateStreamsAreNotLive(s: State, acts: seq<Action>)
    requires !s.sess.alive && After(s, acts).Some?
    ensures LateOk(s, After(s, acts).value)
  {
    if acts != [] {
      LateStreamsAreNotLive(s, acts[..|acts| - 1]);
      StepKeepsLate(s, After(s, acts[..|acts| - 1]).value, acts[|acts| - 1]);
    }
  }
}
