/**
 What a detach and a closing connection leave behind: no stream of the connection that is
 still to send, no entry, and a slot that is not its own. Entries are dropped by their own
 stream's exit or by their own connection, and none outlives its stream.
 */
module StreamDetach {
  import opened Base
  import opened StreamProtocol
  import opened WakeSignal
  import Slots = StreamSlot
  import Reports = StreamReports
  import Attach = StreamAttach

  /** No stream of the connection goes on sending. */
  ghost predicate NoneStreams(s: State, c: ConnId) {
    forall t :: Slots.Streaming(s, t) ==> s.tasks[t].conn != c
  }

  predicate HasSlot(s: State, c: ConnId) {
    s.slot.attacher.Some? && s.slot.attacher.value.conn == c
  }

  // ---- a detach ----

  /** Where a detach that found its connection attached can be, and what it has achieved by then. */
  ghost predicate Detaching(s: State, c: ConnId) {
    match s.slot.Handler(c)
    case CancelOwn => true
    case ClearSlot => c !in s.slot.streams
    case Idle => c !in s.slot.streams && !HasSlot(s, c) && NoneStreams(s, c)
    case _ => false
  }

  lemma OwnHandlerDetaches(s: State, c: ConnId)
    requires Slots.StreamsNamed(s) && Detaching(s, c) && Can(s, RunHandler(c))
    ensures Detaching(Handle(s, c), c)
  {
    if s.slot.Handler(c).ClearSlot? {
      assert NoneStreams(s, c);
      assert forall t :: Slots.Streaming(Handle(s, c), t) ==> Slots.Streaming(s, t);
    }
  }

  /** Another connection's handler does not touch this one's entry, nor give it the slot or a stream. */
  lemma OthersLeaveAlone(s: State, d: ConnId, c: ConnId)
    requires c != d
    ensures var s' := Handle(s, d);
            && (c in s'.slot.streams <==> c in s.slot.streams)
            && (HasSlot(s', c) ==> HasSlot(s, c))
            && (s.slot.Handler(d).Spawn? ==> s'.tasks[s.slot.Handler(d).task].conn == d)
  {
  }

  lemma OthersKeepDetaching(s: State, d: ConnId, c: ConnId)
    requires c != d && Detaching(s, c) && Can(s, RunHandler(d))
    ensures Detaching(Handle(s, d), c)
  {
    Slots.HandlerKeepsCancelled(s.slot, s.sess, d);
    Slots.OthersUntouched(s.slot, s.sess, d, c);
    OthersLeaveAlone(s, d, c);
    assert forall t | Slots.Streaming(Handle(s, d), t) ::
        t in s.tasks && Handle(s, d).tasks[t] == s.tasks[t] ==> Slots.Streaming(s, t);
  }

  lemma TaskKeepsDetaching(s: State, t: TaskId, c: ConnId)
    requires Detaching(s, c) && Can(s, RunTask(t))
    ensures Detaching(Run(s, t), c)
  {
    assert forall u :: Slots.Streaming(Run(s, t), u) ==> Slots.Streaming(s, u);
  }

  lemma StepKeepsDetaching(s: State, a: Action, c: ConnId)
    requires Slots.Inv(s) && Detaching(s, c) && Can(s, a) && !(a.Request? && a.conn == c)
    ensures Detaching(Step(s, a), c)
  {
    match a {
      case RunHandler(d) =>
        if d == c {
          OwnHandlerDetaches(s, c);
        } else {
          OthersKeepDetaching(s, d, c);
        }
      case RunTask(t) => TaskKeepsDetaching(s, t, c);
      case _ => assert forall t :: Slots.Streaming(Step(s, a), t) ==> Slots.Streaming(s, t);
    }
  }

  predicate NoRequest(acts: seq<Action>, c: ConnId) {
    forall i :: 0 <= i < |acts| ==> !(acts[i].Request? && acts[i].conn == c)
  }

  lemma {:induction false} DetachingLasts(cap: nat, before: seq<Action>, acts: seq<Action>, c: ConnId)
    requires After(Init(cap), before).Some? && Detaching(After(Init(cap), before).value, c)
    requires After(Init(cap), before + acts).Some? && Slots.CourteousRun(cap, before + acts) && NoRequest(acts, c)
    ensures Detaching(After(Init(cap), before + acts).value, c)
  {
    if acts == [] {
      assert before + acts == before;
    } else {
      var init, a := acts[..|acts| - 1], acts[|acts| - 1];
      assert (before + acts)[..|before + acts| - 1] == before + init;
      DetachingLasts(cap, before, init, c);
      Slots.EveryCourteousRunKeepsInv(cap, before + init);
      StepKeepsDetaching(After(Init(cap), before + init).value, a, c);
    }
  }

  /**
   On every courteous run, whoever acts meanwhile: when a detach that found its connection
   attached is over, no stream of that connection goes on, its entry is gone, and the slot
   is not its own.
   */
  lemma DetachStopsTheStream(cap: nat, before: seq<Action>, wait: seq<Action>, s: State, c: ConnId,
                             acts: seq<Action>, s': State)
    requires After(Init(cap), before + [Request(c, Detach)]).Some? && Attach.Elsewhere(wait, c)
    requires After(Init(cap), before + [Request(c, Detach)] + wait) == Some(s) && HasSlot(s, c)
    requires var run := before + [Request(c, Detach)] + wait + [RunHandler(c)] + acts;
             After(Init(cap), run) == Some(s') && Slots.CourteousRun(cap, run)
    requires NoRequest(acts, c) && s'.slot.Handler(c) == Idle
    ensures NoneStreams(s', c) && c !in s'.slot.streams && !HasSlot(s', c)
  {
    var asked := before + [Request(c, Detach)];
    assert asked[..|before|] == before;
    AfterConcat(Init(cap), asked, wait);
    Attach.WaitsMeanwhile(After(Init(cap), asked).value, wait, c);
    AfterMore(Init(cap), asked + wait, RunHandler(c));
    assert Detaching(Step(s, RunHandler(c)), c);
    DetachingLasts(cap, asked + wait + [RunHandler(c)], acts, c);
  }

  /** A detach of a connection that is not attached is over at once and changes nothing. */
  lemma DetachOfAnotherChangesNothing(s: State, c: ConnId)
    requires s.slot.Handler(c) == CheckAttached && !HasSlot(s, c)
    ensures Step(s, RunHandler(c)) == s.(slot := s.slot.Goto(c, Idle))
  {
  }

  // ---- a closing connection ----

  ghost predicate ClosedOk(s: State) {
    forall c :: s.slot.Handler(c) == ClearDrained || s.slot.Handler(c) == Closed ==> c !in s.slot.streams
  }

  lemma StepKeepsClosed(s: State, a: Action)
    requires ClosedOk(s) && Can(s, a)
    ensures ClosedOk(Step(s, a))
  {
  }

  predicate Closing(h: HandlerPc) {
    h == Drain || h == ClearDrained || h == Closed
  }

  lemma StepKeepsClosing(s: State, a: Action, c: ConnId)
    requires Closing(s.slot.Handler(c)) && Can(s, a)
    ensures Closing(Step(s, a).slot.Handler(c))
  {
    if a != RunHandler(c) {
      Attach.OthersWait(s, a, c);
    }
  }

  lemma {:induction false} RunKeepsClosing(s: State, acts: seq<Action>, c: ConnId)
    requires Closing(s.slot.Handler(c)) && After(s, acts).Some?
    ensures Closing(After(s, acts).value.slot.Handler(c))
  {
    if acts != [] {
      RunKeepsClosing(s, acts[..|acts| - 1], c);
      StepKeepsClosing(After(s, acts[..|acts| - 1]).value, acts[|acts| - 1], c);
    }
  }

  /** A connection that closes asks for nothing more: its handler comes to an end, and stays there. */
  lemma ClosingIsFinal(s: State, c: ConnId, acts: seq<Action>, s': State)
    requires Can(s, Request(c, Close)) && After(s, [Request(c, Close)] + acts) == Some(s')
    ensures Closing(s'.slot.Handler(c))
  {
    AfterCons(s, Request(c, Close), acts);
    RunKeepsClosing(Step(s, Request(c, Close)), acts, c);
  }

  lemma {:induction false} RunsKeepClosed(cap: nat, acts: seq<Action>)
    requires After(Init(cap), acts).Some?
    ensures ClosedOk(After(Init(cap), acts).value)
  {
    if acts != [] {
      RunsKeepClosed(cap, acts[..|acts| - 1]);
      StepKeepsClosed(After(Init(cap), acts[..|acts| - 1]).value, acts[|acts| - 1]);
    }
  }

  // ---- the slot ----

  /** A connection taking the slot and not yet in the entries. */
  predicate TakingSlot(h: HandlerPc) {
    h.Evict? || h.Record?
  }

  /**
   The attacher has its entry, or will have; or it is giving the slot up, in its handler or in
   the stream's own exit.
   */
  ghost predicate SlotHeld(s: State, a: Attacher) {
    var h := s.slot.Handler(a.conn);
    && (TakingSlot(h) ==> h.task == a.task)
    && (|| (a.conn in s.slot.streams && s.slot.streams[a.conn] == a.task)
        || TakingSlot(h) || h.ClearSlot? || h.ClearDrained?
        || (a.task in s.tasks && s.tasks[a.task].conn == a.conn && s.tasks[a.task].pc == Leave))
  }

  ghost predicate SlotOk(s: State) {
    s.slot.attacher.Some? ==> SlotHeld(s, s.slot.attacher.value)
  }

  lemma OwnHandlerKeepsSlot(s: State, c: ConnId)
    requires Slots.Ids(s.slot, s.tasks) && SlotOk(s) && Can(s, RunHandler(c)) && HasSlot(Handle(s, c), c)
    ensures SlotOk(Handle(s, c))
  {
  }

  lemma OthersKeepSlot(s: State, c: ConnId)
    requires Slots.Ids(s.slot, s.tasks) && SlotOk(s) && Can(s, RunHandler(c)) && !HasSlot(Handle(s, c), c)
    ensures SlotOk(Handle(s, c))
  {
    var a := Handle(s, c).slot.attacher;
    if a.Some? {
      Slots.OthersUntouched(s.slot, s.sess, c, a.value.conn);
      OthersEntry(s, c, a.value.conn);
    }
  }

  lemma StepKeepsSlot(s: State, a: Action)
    requires Slots.Ids(s.slot, s.tasks) && SlotOk(s) && Can(s, a)
    ensures SlotOk(Step(s, a))
  {
    match a {
      case RunHandler(c) =>
        if HasSlot(Handle(s, c), c) {
          OwnHandlerKeepsSlot(s, c);
        } else {
          OthersKeepSlot(s, c);
        }
      case _ =>
    }
  }

  /** On every run the slot names a connection with no entry only while that is being given up. */
  lemma {:induction false} NoStaleSlot(cap: nat, acts: seq<Action>)
    requires After(Init(cap), acts).Some?
    ensures SlotOk(After(Init(cap), acts).value)
  {
    if acts != [] {
      NoStaleSlot(cap, acts[..|acts| - 1]);
      Reports.RunKeepsIds(Init(cap), acts[..|acts| - 1]);
      StepKeepsSlot(After(Init(cap), acts[..|acts| - 1]).value, acts[|acts| - 1]);
    }
  }

  /**
   On every courteous run: once a connection has closed, no stream of it goes on and it has no
   entry, and the slot is not its own but for a last stream just leaving.
   */
  lemma ClosedConnectionsHaveNoStream(cap: nat, acts: seq<Action>, c: ConnId)
    requires After(Init(cap), acts).Some? && Slots.CourteousRun(cap, acts)
    requires After(Init(cap), acts).value.slot.Handler(c) == Closed
    ensures var s := After(Init(cap), acts).value;
            && NoneStreams(s, c) && c !in s.slot.streams
            && (HasSlot(s, c) ==>
                  s.slot.attacher.value.task in s.tasks && s.tasks[s.slot.attacher.value.task].pc == Leave)
  {
    Slots.EveryCourteousRunKeepsInv(cap, acts);
    RunsKeepClosed(cap, acts);
    NoStaleSlot(cap, acts);
  }

  // ---- entries ----

  /** A connection's entry is a stream of its own that has not given it up, or one about to start. */
  ghost predicate EntriesOk(s: State) {
    EntriesLive(s) && EntriesApart(s.slot)
  }

  ghost predicate EntriesLive(s: State) {
    forall c :: c in s.slot.streams ==> EntryLive(s, c)
  }

  ghost predicate EntryLive(s: State, c: ConnId)
    requires c in s.slot.streams
  {
    s.slot.streams[c] in s.tasks ==>
      var k := s.tasks[s.slot.streams[c]]; k.conn == c && k.pc != Leave && k.pc != Done
  }

  ghost predicate EntriesApart(slot: Slot) {
    forall c, d | c in slot.streams && d in slot.handlers && Slots.HasToken(slot.handlers[d]) ::
      slot.handlers[d].task == slot.streams[c] ==> c == d
  }

  lemma OthersEntry(s: State, c: ConnId, d: ConnId)
    requires c != d
    ensures var s' := Handle(s, c);
            && (d in s'.slot.streams <==> d in s.slot.streams)
            && (d in s.slot.streams ==> s'.slot.streams[d] == s.slot.streams[d])
  {
  }

  lemma OwnEntryLive(s: State, c: ConnId)
    requires Slots.Ids(s.slot, s.tasks) && EntriesOk(s) && Can(s, RunHandler(c)) && c in Handle(s, c).slot.streams
    ensures EntryLive(Handle(s, c), c)
  {
  }

  lemma OthersEntryLive(s: State, c: ConnId, d: ConnId)
    requires EntriesOk(s) && Can(s, RunHandler(c)) && c != d && d in Handle(s, c).slot.streams
    ensures EntryLive(Handle(s, c), d)
  {
    OthersEntry(s, c, d);
    assert EntryLive(s, d);
  }

  /** The handler's own token after a step: the one it had, or a new one. */
  lemma OwnToken(s: State, c: ConnId)
    requires Can(s, RunHandler(c)) && Slots.HasToken(Handle(s, c).slot.Handler(c))
    ensures var h, k := s.slot.Handler(c), Handle(s, c).slot.Handler(c).task;
            if h.Install? then k == s.slot.next else Slots.HasToken(h) && h.task == k
  {
  }

  lemma OwnTokenApart(s: State, c: ConnId, d: ConnId)
    requires Slots.KnownIds(s.slot) && EntriesApart(s.slot) && Can(s, RunHandler(c))
    requires Slots.HasToken(Handle(s, c).slot.Handler(c)) && d in Handle(s, c).slot.streams && d != c
    ensures Handle(s, c).slot.Handler(c).task != Handle(s, c).slot.streams[d]
  {
    OwnToken(s, c);
    OthersEntry(s, c, d);
  }

  lemma OthersTokenApart(s: State, c: ConnId, e: ConnId, d: ConnId)
    requires Slots.KnownIds(s.slot) && Slots.DistinctTokens(s.slot) && EntriesApart(s.slot) && Can(s, RunHandler(c))
    requires e != c && e in s.slot.handlers && Slots.HasToken(s.slot.handlers[e])
    requires d in Handle(s, c).slot.streams && s.slot.handlers[e].task == Handle(s, c).slot.streams[d]
    ensures d == e
  {
    if d != c {
      OthersEntry(s, c, d);
    }
  }

  lemma HandlerKeepsApart(s: State, c: ConnId)
    requires Slots.Ids(s.slot, s.tasks) && EntriesApart(s.slot) && Can(s, RunHandler(c))
    ensures EntriesApart(Handle(s, c).slot)
  {
    var b := Handle(s, c).slot;
    forall d, e | d in b.streams && e in b.handlers && Slots.HasToken(b.handlers[e])
                  && b.handlers[e].task == b.streams[d]
      ensures d == e
    {
      if e != c {
        Slots.OthersUntouched(s.slot, s.sess, c, e);
        OthersTokenApart(s, c, e, d);
      } else if d != c {
        OwnTokenApart(s, c, d);
      }
    }
  }

  lemma HandlerKeepsEntries(s: State, c: ConnId)
    requires Slots.Ids(s.slot, s.tasks) && EntriesOk(s) && Can(s, RunHandler(c))
    ensures EntriesOk(Handle(s, c))
  {
    forall d | d in Handle(s, c).slot.streams
      ensures EntryLive(Handle(s, c), d)
    {
      if d == c {
        OwnEntryLive(s, c);
      } else {
        OthersEntryLive(s, c, d);
      }
    }
    HandlerKeepsApart(s, c);
  }

  lemma TaskKeepsEntries(s: State, t: TaskId)
    requires EntriesOk(s) && Can(s, RunTask(t))
    ensures EntriesOk(Run(s, t))
  {
    assert Run(s, t).tasks[t].conn == s.tasks[t].conn;
  }

  lemma StepKeepsEntries(s: State, a: Action)
    requires Slots.Ids(s.slot, s.tasks) && EntriesOk(s) && Can(s, a)
    ensures EntriesOk(Step(s, a))
  {
    match a {
      case RunHandler(c) => HandlerKeepsEntries(s, c);
      case RunTask(t) => TaskKeepsEntries(s, t);
      case _ =>
    }
  }

  /** On every run no entry outlives its stream, and each names a stream of its own connection. */
  lemma {:induction false} NoStaleEntries(cap: nat, acts: seq<Action>)
    requires After(Init(cap), acts).Some?
    ensures EntriesOk(After(Init(cap), acts).value)
  {
    if acts != [] {
      NoStaleEntries(cap, acts[..|acts| - 1]);
      Reports.RunKeepsIds(Init(cap), acts[..|acts| - 1]);
      StepKeepsEntries(After(Init(cap), acts[..|acts| - 1]).value, acts[|acts| - 1]);
    }
  }

  /**
   An entry goes only with the exit of the very stream it names, or by a handler of its own
   connection, which cancels that stream.
   */
  lemma OnlyOwnersDropEntries(s: State, a: Action, c: ConnId)
    requires Can(s, a) && c in s.slot.streams
    requires c !in Step(s, a).slot.streams || Step(s, a).slot.streams[c] != s.slot.streams[c]
    ensures
      match a
      case RunTask(t) => s.slot.streams[c] == t && s.tasks[t].conn == c && s.tasks[t].pc == Forget
      case RunHandler(d) => d == c && s.slot.streams[c] in Step(s, a).slot.cancelled
      case _ => false
  {
  }

  /** A stream whose client is gone sends nothing more, and is done within two steps of its own. */
  lemma DisconnectedStreamStops(s: State, t: TaskId) returns (s': State)
    requires Can(s, Offer(t, Disconnected))
    ensures After(s, [Offer(t, Disconnected)] + [RunTask(t), RunTask(t)]) == Some(s') && t in s'.tasks
    ensures s'.tasks[t].pc == Done
    ensures s'.tasks[t].frames == s.tasks[t].frames && s'.tasks[t].notices == s.tasks[t].notices
  {
    var m := Step(s, Offer(t, Disconnected));
    AfterTwo(m, RunTask(t), RunTask(t));
    AfterCons(s, Offer(t, Disconnected), [RunTask(t), RunTask(t)]);
    s' := Step(Step(m, RunTask(t)), RunTask(t));
  }
}
