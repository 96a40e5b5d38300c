/**
 Reports of dropped output. Output that could not be stored leaves no gap in the
 cursors, so a stream owes its client a notice of every drop while it is watching: it
 gives one at the top of its loop, and only there.
 */
module StreamReports {
  import opened Base
  import opened StreamProtocol
  import opened WakeSignal
  import R = RingHistory
  import Slots = StreamSlot
  import Takeover = StreamTakeover

  function IfDrop(n: Notice): nat {
    if n == OutputDropped then 1 else 0
  }

  /** How many of the notices are reports of drops. */
  function Reports(notices: seq<Notice>): nat {
    if notices == [] then 0 else Reports(notices[..|notices| - 1]) + IfDrop(notices[|notices| - 1])
  }

  lemma OneMoreNotice(notices: seq<Notice>, n: Notice)
    ensures Reports(notices + [n]) == Reports(notices) + IfDrop(n)
  {
    assert (notices + [n])[..|notices|] == notices;
  }

  lemma {:induction false} ReportedIff(notices: seq<Notice>)
    ensures OutputDropped in notices <==> Reports(notices) > 0
  {
    if notices != [] {
      var init, n := notices[..|notices| - 1], notices[|notices| - 1];
      ReportedIff(init);
      assert notices == init + [n];
    }
  }

  // ---- the drop counter ----

  /** Chunks that could not be stored, among a run's acts. */
  function Refusals(acts: seq<Action>): nat {
    if acts == [] then 0
    else
      var a := acts[|acts| - 1];
      Refusals(acts[..|acts| - 1]) + if a.Reader? && a.act.Refuse? then 1 else 0
  }

  /** On every run the counter is the number of refused chunks, less the one about to be counted. */
  lemma {:induction false} DropsAreCounted(cap: nat, acts: seq<Action>)
    requires After(Init(cap), acts).Some?
    ensures var s := After(Init(cap), acts).value.sess;
            s.drops + (if s.reader == Counting then 1 else 0) == Refusals(acts)
  {
    if acts != [] {
      DropsAreCounted(cap, acts[..|acts| - 1]);
    }
  }

  // ---- what a stream has reported ----

  /** A stream that has not started has told its client nothing. */
  ghost predicate StartsSilent(s: State) {
    forall t :: t in s.tasks && s.tasks[t].pc == Begin ==> s.tasks[t].notices == []
  }

  lemma StepStartsSilent(s: State, a: Action)
    requires StartsSilent(s) && Can(s, a)
    ensures StartsSilent(Step(s, a))
  {
  }

  lemma {:induction false} EveryRunStartsSilent(cap: nat, acts: seq<Action>)
    requires After(Init(cap), acts).Some?
    ensures StartsSilent(After(Init(cap), acts).value)
  {
    if acts != [] {
      EveryRunStartsSilent(cap, acts[..|acts| - 1]);
      StepStartsSilent(After(Init(cap), acts[..|acts| - 1]).value, acts[|acts| - 1]);
    }
  }

  /** `base` is the counter the stream began with. */
  ghost predicate ReportsOk(s: Session, k: Task, base: nat) {
    && k.pc != Begin && base <= k.reported <= s.drops
    && Reports(k.notices) <= k.reported - base
    && (k.reported > base ==> Reports(k.notices) > 0)
  }

  /** Only a look at the top of the loop that finds the counter changed adds a report. */
  lemma ReportsChange(s: Session, k: Task, cancelled: bool, woken: bool)
    requires k.pc != Begin
    ensures var k' := TaskStep(k, s, cancelled, woken);
            && k'.pc != Begin
            && k'.reported == (if k.pc == Top then s.drops else k.reported)
            && Reports(k'.notices)
               == Reports(k.notices) + if k.pc == Top && s.drops != k.reported then 1 else 0
  {
    match k.pc {
      case Top => OneMoreNotice(k.notices, OutputDropped);
      case Read => OneMoreNotice(k.notices, Evicted(k.cursor));
      case CheckHead => OneMoreNotice(k.notices, Exited(s.Head()));
      case _ =>
    }
  }

  lemma TaskKeepsReports(s: Session, k: Task, base: nat, cancelled: bool, woken: bool)
    requires ReportsOk(s, k, base)
    ensures ReportsOk(s, TaskStep(k, s, cancelled, woken), base)
  {
    ReportsChange(s, k, cancelled, woken);
  }

  lemma ReaderKeepsReports(s: Session, act: ReaderAct, k: Task, base: nat)
    requires ReaderCan(s, act) && ReportsOk(s, k, base)
    ensures ReportsOk(ReaderStep(s, act), k, base)
  {
  }

  lemma StepKeepsIds(s: State, a: Action)
    requires Slots.Ids(s.slot, s.tasks) && Can(s, a)
    ensures Slots.Ids(Step(s, a).slot, Step(s, a).tasks)
  {
    match a {
      case RunTask(t) => Slots.TaskKeepsIds(s, t);
      case Request(c, req) => Slots.RequestKeepsIds(s.slot, s.tasks, c, req);
      case RunHandler(c) => Slots.HandlerKeepsIds(s, c);
      case _ =>
    }
  }

  lemma {:induction false} RunKeepsIds(s: State, acts: seq<Action>)
    requires Slots.Ids(s.slot, s.tasks) && After(s, acts).Some?
    ensures Slots.Ids(After(s, acts).value.slot, After(s, acts).value.tasks)
  {
    if acts != [] {
      RunKeepsIds(s, acts[..|acts| - 1]);
      StepKeepsIds(After(s, acts[..|acts| - 1]).value, acts[|acts| - 1]);
    }
  }

  lemma StepKeepsReports(s: State, a: Action, t: TaskId, base: nat)
    requires Slots.Ids(s.slot, s.tasks) && t in s.tasks && ReportsOk(s.sess, s.tasks[t], base) && Can(s, a)
    ensures t in Step(s, a).tasks && ReportsOk(Step(s, a).sess, Step(s, a).tasks[t], base)
  {
    match a {
      case Reader(act) => ReaderKeepsReports(s.sess, act, s.tasks[t], base);
      case RunTask(u) =>
        if u == t {
          TaskKeepsReports(s.sess, s.tasks[t], base, t in s.slot.cancelled, Ready(s.wake, t));
        }
      case _ =>
    }
  }

  lemma {:induction false} RunKeepsReports(s: State, acts: seq<Action>, t: TaskId, base: nat)
    requires Slots.Ids(s.slot, s.tasks) && t in s.tasks && ReportsOk(s.sess, s.tasks[t], base) && After(s, acts).Some?
    ensures var s' := After(s, acts).value; t in s'.tasks && ReportsOk(s'.sess, s'.tasks[t], base)
  {
    if acts != [] {
      RunKeepsReports(s, acts[..|acts| - 1], t, base);
      RunKeepsIds(s, acts[..|acts| - 1]);
      StepKeepsReports(After(s, acts[..|acts| - 1]).value, acts[|acts| - 1], t, base);
    }
  }

  /**
   On every run, from the step with which a stream begins: its client has been told of a
   drop exactly if the stream has seen the counter above what it was then, at least once
   and at most once for each drop since.
   */
  lemma DropsAreReported(cap: nat, before: seq<Action>, s: State, t: TaskId, acts: seq<Action>, s': State)
    requires After(Init(cap), before) == Some(s) && t in s.tasks && s.tasks[t].pc == Begin
    requires After(s, [RunTask(t)] + acts) == Some(s')
    ensures t in s'.tasks
    ensures var k, base := s'.tasks[t], s.sess.drops;
            && base <= k.reported <= s'.sess.drops
            && (OutputDropped in k.notices <==> base < k.reported)
            && (base < k.reported ==> 1 <= Reports(k.notices) <= k.reported - base)
  {
    RunKeepsIds(Init(cap), before);
    EveryRunStartsSilent(cap, before);
    AfterCons(s, RunTask(t), acts);
    StepKeepsIds(s, RunTask(t));
    RunKeepsReports(Step(s, RunTask(t)), acts, t, s.sess.drops);
    ReportedIff(s'.tasks[t].notices);
  }

  // ---- a drop that is not reported ----

  /** A chunk is refused, counted and signalled, and then the exit is recorded. */
  lemma DropsAndExits(s: State, data: seq<byte>) returns (acts: seq<Action>, s': State)
    requires s.sess.reader == Reading && data != []
    ensures After(s, acts) == Some(s') && s'.tasks == s.tasks && s'.slot == s.slot
    ensures s'.sess == Session(R.Apply(s.sess.ring, R.Refused(data)), false, s.sess.drops + 1, Gone)
  {
    var s1 := Step(s, Reader(Refuse(data)));
    var s2 := Step(s1, Reader(Count));
    var s3 := Step(s2, Reader(Notify));
    var s4 := Step(s3, Reader(Notify));
    var s5 := Step(s4, Reader(EndOfOutput));
    var s6 := Step(s5, Reader(SetStatus));
    AfterTwo(s, Reader(Refuse(data)), Reader(Count));
    AfterTwo(s2, Reader(Notify), Reader(Notify));
    AfterConcat(s, [Reader(Refuse(data)), Reader(Count)], [Reader(Notify), Reader(Notify)]);
    AfterTwo(s4, Reader(EndOfOutput), Reader(SetStatus));
    AfterOne(s6, Reader(Announce));
    AfterConcat(s4, [Reader(EndOfOutput), Reader(SetStatus)], [Reader(Announce)]);
    var first := [Reader(Refuse(data)), Reader(Count)] + [Reader(Notify), Reader(Notify)];
    var last := [Reader(EndOfOutput), Reader(SetStatus)] + [Reader(Announce)];
    AfterConcat(s, first, last);
    acts, s' := first + last, Step(s6, Reader(Announce));
  }

  /** A stream that has read all there is, and not yet looked at the status, finds the session dead and leaves. */
  lemma LeavesCaughtUp(s: State, t: TaskId) returns (acts: seq<Action>, s': State)
    requires t in s.tasks && s.tasks[t].pc == CheckStatus && s.tasks[t].liveAttach
    requires !s.sess.alive && s.sess.Head() <= s.tasks[t].cursor
    ensures After(s, acts) == Some(s') && s'.sess == s.sess && t in s'.tasks
    ensures s'.tasks[t] == s.tasks[t].(pc := Done, notices := s.tasks[t].notices + [Exited(s.sess.Head())])
  {
    var s1 := Step(s, RunTask(t));
    var s2 := Step(s1, RunTask(t));
    var s3 := Step(s2, RunTask(t));
    AfterTwo(s, RunTask(t), RunTask(t));
    AfterTwo(s2, RunTask(t), RunTask(t));
    AfterConcat(s, [RunTask(t), RunTask(t)], [RunTask(t), RunTask(t)]);
    acts, s' := [RunTask(t), RunTask(t)] + [RunTask(t), RunTask(t)], Step(s3, RunTask(t));
  }

  lemma FindsNothing(s: State, t: TaskId)
    requires t in s.tasks && s.tasks[t].pc == Read && s.sess.ring.Valid() && s.tasks[t].cursor == s.sess.Head()
    ensures After(s, [RunTask(t)]) == Some(s.(tasks := s.tasks[t := s.tasks[t].(pc := CheckStatus)]))
  {
    AfterOne(s, RunTask(t));
  }

  /** A stream of a fresh session has looked, and read all there is. */
  lemma HasLooked(cap: nat) returns (acts: seq<Action>, s: State)
    ensures After(Init(cap), acts) == Some(s) && s.sess == Init(cap).sess
    ensures s.tasks == map[0 := NewTask(1, 0, true).(pc := CheckStatus)]
  {
    var one, s1 := Takeover.AttachFully(cap, [], Init(cap), 1);
    var s2 := Takeover.ComesToRead(s1, 0);
    FindsNothing(s2, 0);
    var read := [RunTask(0)] + [RunTask(0)];
    AfterConcat(Init(cap), one, read);
    AfterConcat(Init(cap), one + read, [RunTask(0)]);
    acts, s := one + read + [RunTask(0)], s2.(tasks := s2.tasks[0 := s2.tasks[0].(pc := CheckStatus)]);
  }

  /**
   A drop between a stream's last look and the exit: the stream ends with all output delivered
   and has not told of it.
   */
  lemma LateDropIsNotReported(cap: nat) returns (acts: seq<Action>, s: State)
    ensures After(Init(cap), acts) == Some(s) && 0 in s.tasks
    ensures s.tasks[0].pc == Done && s.tasks[0].notices == [Exited(0)] && s.sess.drops == 1
  {
    var looked, s1 := HasLooked(cap);
    var drop, s2 := DropsAndExits(s1, [7]);
    var last: seq<Action>;
    last, s := LeavesCaughtUp(s2, 0);
    AfterConcat(Init(cap), looked, drop);
    AfterConcat(Init(cap), looked + drop, last);
    acts := looked + drop + last;
  }
}
