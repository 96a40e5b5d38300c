/**
 Single attacher with takeover. The slot names the one stream that is not
 cancelled, on every run in which no connection re-attaches while a stream of its
 own is still running; without that the older stream's exit empties the slot.
 */
module StreamSlot {
  import opened Base
  import opened StreamProtocol
  import opened WakeSignal
  import R = RingHistory

  /** In its loop or about to drop its entry, and not told to stop. */
  ghost predicate Streaming(s: State, t: TaskId) {
    t in s.tasks && t !in s.slot.cancelled && s.tasks[t].pc != Leave && s.tasks[t].pc != Done
  }

  ghost predicate OwnStreamsDone(tasks: map<TaskId, Task>, c: ConnId) {
    forall t :: t in tasks && tasks[t].conn == c ==> tasks[t].pc == Done
  }

  /** No connection asks to attach while a stream task of its own is still running. */
  ghost predicate Courteous(s: State, a: Action) {
    a.Request? && a.req.Attach? ==> OwnStreamsDone(s.tasks, a.conn)
  }

  ghost predicate CourteousRun(cap: nat, acts: seq<Action>) {
    acts != [] ==>
      && CourteousRun(cap, acts[..|acts| - 1])
      && (After(Init(cap), acts[..|acts| - 1]).Some? ==>
            Courteous(After(Init(cap), acts[..|acts| - 1]).value, acts[|acts| - 1]))
  }

  // ---- the invariant ----

  predicate Attaching(h: HandlerPc) {
    h.AskHead? || h.AskTail? || h.Install? || HasToken(h)
  }

  predicate HasToken(h: HandlerPc) {
    h.Evict? || h.Record? || h.AskAlive? || h.Spawn?
  }

  predicate Recorded(h: HandlerPc) {
    h.AskAlive? || h.Spawn?
  }

  predicate Quitting(h: HandlerPc) {
    h.ClearSlot? || h.ClearDrained? || h.Closed?
  }

  /** Some handler has taken the slot from `k` and has yet to cancel it. */
  ghost predicate Owed(slot: Slot, k: TaskId) {
    exists c :: c in slot.handlers && OwedBy(slot.handlers[c], k)
  }

  predicate OwedBy(h: HandlerPc, k: TaskId) {
    h.Evict? && h.prior.Some? && h.prior.value.task == k
  }

  ghost predicate Named(slot: Slot, c: ConnId, k: TaskId) {
    slot.attacher == Some(Attacher(c, k)) || Owed(slot, k)
  }

  ghost predicate TokenIds(slot: Slot, tasks: map<TaskId, Task>) {
    && (forall t :: t in tasks ==> t < slot.next)
    && (forall c :: c in slot.handlers && HasToken(slot.handlers[c]) ==> slot.handlers[c].task !in tasks)
  }

  ghost predicate DistinctTokens(slot: Slot) {
    forall c, d | c in slot.handlers && d in slot.handlers && c != d ::
      HasToken(slot.handlers[c]) && HasToken(slot.handlers[d]) ==> slot.handlers[c].task != slot.handlers[d].task
  }

  /** Handlers, cancel handles, entries and the slot only ever name attaches already made. */
  ghost predicate KnownIds(slot: Slot) {
    && (forall c :: c in slot.handlers && HasToken(slot.handlers[c]) ==> slot.handlers[c].task < slot.next)
    && (forall k :: k in slot.cancelled ==> k < slot.next)
    && (forall c :: c in slot.streams ==> slot.streams[c] < slot.next)
    && (slot.attacher.Some? ==> slot.attacher.value.task < slot.next)
    && (forall c :: c in slot.handlers && slot.handlers[c].Evict? && slot.handlers[c].prior.Some? ==>
          slot.handlers[c].prior.value.task < slot.next)
  }

  ghost predicate Ids(slot: Slot, tasks: map<TaskId, Task>) {
    TokenIds(slot, tasks) && DistinctTokens(slot) && KnownIds(slot)
  }

  ghost predicate OnePerConnection(slot: Slot, tasks: map<TaskId, Task>) {
    && (forall c :: c in slot.handlers && Attaching(slot.handlers[c]) ==> OwnStreamsDone(tasks, c))
    && (forall t, u | t in tasks && u in tasks && tasks[t].conn == tasks[u].conn ::
          tasks[t].pc != Done && tasks[u].pc != Done ==> t == u)
  }

  ghost predicate TokensNamed(slot: Slot) {
    forall c :: c in slot.handlers && HasToken(slot.handlers[c]) && slot.handlers[c].task !in slot.cancelled ==>
      && Named(slot, c, slot.handlers[c].task)
      && (Recorded(slot.handlers[c]) ==> c in slot.streams && slot.streams[c] == slot.handlers[c].task)
  }

  ghost predicate StreamsNamed(s: State) {
    forall t :: Streaming(s, t) ==>
      && Named(s.slot, s.tasks[t].conn, t)
      && s.tasks[t].conn in s.slot.streams && s.slot.streams[s.tasks[t].conn] == t
      && !Quitting(s.slot.Handler(s.tasks[t].conn))
  }

  ghost predicate Inv(s: State) {
    Ids(s.slot, s.tasks) && OnePerConnection(s.slot, s.tasks) && TokensNamed(s.slot) && StreamsNamed(s)
  }

  // ---- preservation: a stream task moves ----

  lemma TaskKeepsTokens(s: State, t: TaskId)
    requires Inv(s) && Can(s, RunTask(t))
    ensures TokensNamed(Run(s, t).slot)
  {
    var s' := Run(s, t);
    var hs := s.slot.handlers;
    assert s'.slot.handlers == hs;
    forall c | c in hs && HasToken(hs[c]) && hs[c].task !in s'.slot.cancelled
      ensures Named(s'.slot, c, hs[c].task)
      ensures Recorded(hs[c]) ==> c in s'.slot.streams && s'.slot.streams[c] == hs[c].task
    {
      assert Named(s.slot, c, hs[c].task);
      assert Owed(s.slot, hs[c].task) ==> Owed(s'.slot, hs[c].task);
    }
  }

  lemma TaskKeepsStreams(s: State, t: TaskId)
    requires Inv(s) && Can(s, RunTask(t))
    ensures StreamsNamed(Run(s, t))
  {
    var s' := Run(s, t);
    forall u | Streaming(s', u)
      ensures Named(s'.slot, s'.tasks[u].conn, u)
      ensures s'.tasks[u].conn in s'.slot.streams && s'.slot.streams[s'.tasks[u].conn] == u
      ensures !Quitting(s'.slot.Handler(s'.tasks[u].conn))
    {
      assert Streaming(s, u);
      assert Owed(s.slot, u) ==> Owed(s'.slot, u);
    }
  }

  lemma TaskKeepsInv(s: State, t: TaskId)
    requires Inv(s) && Can(s, RunTask(t))
    ensures Inv(Run(s, t))
  {
    TaskKeepsTokens(s, t);
    TaskKeepsStreams(s, t);
    TaskKeepsIds(s, t);
    TaskKeepsOne(s, t);
  }

  lemma TaskKeepsIds(s: State, t: TaskId)
    requires Ids(s.slot, s.tasks) && Can(s, RunTask(t))
    ensures Ids(Run(s, t).slot, Run(s, t).tasks)
  {
  }

  lemma TaskKeepsOne(s: State, t: TaskId)
    requires OnePerConnection(s.slot, s.tasks) && Can(s, RunTask(t))
    ensures OnePerConnection(Run(s, t).slot, Run(s, t).tasks)
  {
    assert Run(s, t).tasks[t].conn == s.tasks[t].conn;
  }

  lemma OfferKeepsInv(s: State, t: TaskId, o: Offered)
    requires Inv(s) && Can(s, Offer(t, o))
    ensures Inv(Step(s, Offer(t, o)))
  {
    var s' := Step(s, Offer(t, o));
    forall u | Streaming(s', u)
      ensures Streaming(s, u) && s'.tasks[u].conn == s.tasks[u].conn
    {
    }
  }

  // ---- preservation: a handler moves ----

  lemma OwedElsewhere(a: Slot, b: Slot, c: ConnId, k: TaskId)
    requires forall d :: d in a.handlers && d != c ==> d in b.handlers && b.handlers[d] == a.handlers[d]
    requires Owed(a, k) && !OwedBy(a.Handler(c), k)
    ensures Owed(b, k)
  {
    var d :| d in a.handlers && OwedBy(a.handlers[d], k);
    assert d in b.handlers && OwedBy(b.handlers[d], k);
  }

  /** What a name in the slot needs to survive a step of `c`'s handler. */
  lemma StillNamed(a: Slot, b: Slot, c: ConnId, d: ConnId, k: TaskId)
    requires forall e :: e in a.handlers && e != c ==> e in b.handlers && b.handlers[e] == a.handlers[e]
    requires Named(a, d, k) && !OwedBy(a.Handler(c), k)
    requires a.attacher == Some(Attacher(d, k)) ==>
               b.attacher == a.attacher || (c in b.handlers && OwedBy(b.handlers[c], k))
    ensures Named(b, d, k)
  {
    if Owed(a, k) {
      OwedElsewhere(a, b, c, k);
    }
  }

  lemma OthersTokenNamed(a: Slot, sess: Session, c: ConnId, d: ConnId)
    requires KnownIds(a) && DistinctTokens(a) && TokensNamed(a) && a.Handler(c) != Idle
    requires a.Handler(c) != Closed && d != c
    requires d in a.handlers && HasToken(a.handlers[d]) && a.handlers[d].task !in HandlerStep(a, sess, c).cancelled
    ensures Named(HandlerStep(a, sess, c), d, a.handlers[d].task)
  {
    StillNamed(a, HandlerStep(a, sess, c), c, d, a.handlers[d].task);
  }

  lemma OwnTokenNamed(a: Slot, sess: Session, c: ConnId)
    requires KnownIds(a) && DistinctTokens(a) && TokensNamed(a) && a.Handler(c) != Idle && a.Handler(c) != Closed
    requires var h := HandlerStep(a, sess, c).Handler(c); HasToken(h) && h.task !in HandlerStep(a, sess, c).cancelled
    ensures var b := HandlerStep(a, sess, c); Named(b, c, b.Handler(c).task)
  {
    if !a.Handler(c).Install? {
      StillNamed(a, HandlerStep(a, sess, c), c, c, a.Handler(c).task);
    }
  }

  lemma OthersTokenRecorded(a: Slot, sess: Session, c: ConnId, d: ConnId)
    requires TokensNamed(a) && a.Handler(c) != Idle && a.Handler(c) != Closed && d != c
    requires d in a.handlers && Recorded(a.handlers[d]) && a.handlers[d].task !in HandlerStep(a, sess, c).cancelled
    ensures var b := HandlerStep(a, sess, c); d in b.streams && b.streams[d] == a.handlers[d].task
  {
    HandlerKeepsCancelled(a, sess, c);
  }

  lemma OwnTokenRecorded(a: Slot, sess: Session, c: ConnId)
    requires TokensNamed(a) && a.Handler(c) != Idle && a.Handler(c) != Closed
    requires var h := HandlerStep(a, sess, c).Handler(c); Recorded(h) && h.task !in HandlerStep(a, sess, c).cancelled
    ensures var b := HandlerStep(a, sess, c); c in b.streams && b.streams[c] == b.Handler(c).task
  {
  }

  lemma OthersUntouched(a: Slot, sess: Session, c: ConnId, d: ConnId)
    requires d != c
    ensures HandlerStep(a, sess, c).Handler(d) == a.Handler(d)
    ensures d in HandlerStep(a, sess, c).handlers <==> d in a.handlers
  {
  }

  lemma HandlerKeepsTokens(s: State, c: ConnId)
    requires Inv(s) && Can(s, RunHandler(c))
    ensures TokensNamed(Handle(s, c).slot)
  {
    var b := Handle(s, c).slot;
    forall d | d in b.handlers && HasToken(b.handlers[d]) && b.handlers[d].task !in b.cancelled
      ensures Named(b, d, b.handlers[d].task)
      ensures Recorded(b.handlers[d]) ==> d in b.streams && b.streams[d] == b.handlers[d].task
    {
      if d == c {
        OwnTokenNamed(s.slot, s.sess, c);
        if Recorded(b.handlers[d]) {
          OwnTokenRecorded(s.slot, s.sess, c);
        }
      } else {
        OthersUntouched(s.slot, s.sess, c, d);
        OthersTokenNamed(s.slot, s.sess, c, d);
        if Recorded(b.handlers[d]) {
          OthersTokenRecorded(s.slot, s.sess, c, d);
        }
      }
    }
  }

  /** The task a spawn starts takes over the name and the entry of its token. */
  lemma SpawnNames(s: State, c: ConnId)
    requires Inv(s) && Can(s, RunHandler(c)) && s.slot.Handler(c).Spawn?
    ensures var k := s.slot.Handler(c).task;
            var b := Handle(s, c).slot;
            k !in b.cancelled ==> Named(b, c, k) && c in b.streams && b.streams[c] == k && !Quitting(b.Handler(c))
  {
    var k := s.slot.Handler(c).task;
    if k !in s.slot.cancelled {
      StillNamed(s.slot, Handle(s, c).slot, c, c, k);
    }
  }

  lemma HandlerKeepsEntry(s: State, c: ConnId, t: TaskId)
    requires Inv(s) && Can(s, RunHandler(c)) && Streaming(s, t) && t !in Handle(s, c).slot.cancelled
    ensures var d, b := s.tasks[t].conn, Handle(s, c).slot;
            d in b.streams && b.streams[d] == t && !Quitting(b.Handler(d))
  {
  }

  /** A step changes the slot by taking it, which it then owes for, or by giving up its own connection's. */
  lemma SlotMoves(a: Slot, sess: Session, c: ConnId, d: ConnId, k: TaskId)
    requires a.attacher == Some(Attacher(d, k)) && !(Quitting(a.Handler(c)) && c == d)
    ensures var b := HandlerStep(a, sess, c); b.attacher == a.attacher || (c in b.handlers && OwedBy(b.handlers[c], k))
  {
  }

  lemma OwedIsCancelled(a: Slot, sess: Session, c: ConnId, k: TaskId)
    requires OwedBy(a.Handler(c), k)
    ensures k in HandlerStep(a, sess, c).cancelled
  {
  }

  lemma NameSurvives(a: Slot, sess: Session, c: ConnId, d: ConnId, k: TaskId)
    requires Named(a, d, k) && !(Quitting(a.Handler(c)) && c == d) && k !in HandlerStep(a, sess, c).cancelled
    ensures Named(HandlerStep(a, sess, c), d, k)
  {
    if OwedBy(a.Handler(c), k) {
      OwedIsCancelled(a, sess, c, k);
    }
    if a.attacher == Some(Attacher(d, k)) {
      SlotMoves(a, sess, c, d, k);
    }
    forall e | e in a.handlers && e != c
      ensures e in HandlerStep(a, sess, c).handlers && HandlerStep(a, sess, c).handlers[e] == a.handlers[e]
    {
      OthersUntouched(a, sess, c, e);
    }
    StillNamed(a, HandlerStep(a, sess, c), c, d, k);
  }

  lemma HandlerKeepsNamed(s: State, c: ConnId, t: TaskId)
    requires StreamsNamed(s) && Streaming(s, t) && t !in Handle(s, c).slot.cancelled
    ensures Named(Handle(s, c).slot, s.tasks[t].conn, t)
  {
    NameSurvives(s.slot, s.sess, c, s.tasks[t].conn, t);
  }

  lemma HandlerKeepsStreams(s: State, c: ConnId)
    requires Inv(s) && Can(s, RunHandler(c))
    ensures StreamsNamed(Handle(s, c))
  {
    var s' := Handle(s, c);
    var b := s'.slot;
    forall t | Streaming(s', t)
      ensures Named(b, s'.tasks[t].conn, t)
      ensures s'.tasks[t].conn in b.streams && b.streams[s'.tasks[t].conn] == t
      ensures !Quitting(b.Handler(s'.tasks[t].conn))
    {
      if s.slot.Handler(c).Spawn? && t == s.slot.Handler(c).task {
        SpawnNames(s, c);
      } else {
        assert s'.tasks[t] == s.tasks[t];
        HandlerKeepsCancelled(s.slot, s.sess, c);
        HandlerKeepsEntry(s, c, t);
        HandlerKeepsNamed(s, c, t);
      }
    }
  }

  lemma HandlerKeepsCancelled(a: Slot, sess: Session, c: ConnId)
    ensures a.cancelled <= HandlerStep(a, sess, c).cancelled
  {
  }

  lemma HandlerKeepsTokenIds(s: State, c: ConnId)
    requires Ids(s.slot, s.tasks) && Can(s, RunHandler(c))
    ensures TokenIds(Handle(s, c).slot, Handle(s, c).tasks)
  {
  }

  lemma HandlerKeepsDistinct(s: State, c: ConnId)
    requires DistinctTokens(s.slot) && KnownIds(s.slot) && Can(s, RunHandler(c))
    ensures DistinctTokens(Handle(s, c).slot)
  {
    var b := Handle(s, c).slot;
    assert HasToken(b.Handler(c)) ==> if s.slot.Handler(c).Install? then b.Handler(c).task == s.slot.next
                                      else HasToken(s.slot.Handler(c)) && b.Handler(c).task == s.slot.Handler(c).task;
    forall d, e | d in b.handlers && e in b.handlers && d != e && HasToken(b.handlers[d]) && HasToken(b.handlers[e])
      ensures b.handlers[d].task != b.handlers[e].task
    {
      if d != c {
        OthersUntouched(s.slot, s.sess, c, d);
      }
      if e != c {
        OthersUntouched(s.slot, s.sess, c, e);
      }
    }
  }

  lemma HandlerKeepsKnown(a: Slot, sess: Session, c: ConnId)
    requires KnownIds(a) && a.Handler(c) != Idle && a.Handler(c) != Closed
    ensures KnownIds(HandlerStep(a, sess, c))
  {
  }

  lemma HandlerKeepsIds(s: State, c: ConnId)
    requires Ids(s.slot, s.tasks) && Can(s, RunHandler(c))
    ensures Ids(Handle(s, c).slot, Handle(s, c).tasks)
  {
    HandlerKeepsTokenIds(s, c);
    HandlerKeepsDistinct(s, c);
    HandlerKeepsKnown(s.slot, s.sess, c);
  }

  lemma HandlerKeepsOne(s: State, c: ConnId)
    requires Inv(s) && Can(s, RunHandler(c))
    ensures OnePerConnection(Handle(s, c).slot, Handle(s, c).tasks)
  {
    var s' := Handle(s, c);
    forall d | d in s'.slot.handlers && Attaching(s'.slot.handlers[d])
      ensures OwnStreamsDone(s'.tasks, d)
    {
      AttachingAlone(s, c, d);
    }
  }

  /** A handler about to spawn is the only one whose connection may have a stream that is not done. */
  lemma AttachingAlone(s: State, c: ConnId, d: ConnId)
    requires Inv(s) && Can(s, RunHandler(c))
    requires d in Handle(s, c).slot.handlers && Attaching(Handle(s, c).slot.handlers[d])
    ensures OwnStreamsDone(Handle(s, c).tasks, d)
  {
    if d != c {
      OthersUntouched(s.slot, s.sess, c, d);
    }
  }

  lemma HandlerKeepsInv(s: State, c: ConnId)
    requires Inv(s) && Can(s, RunHandler(c))
    ensures Inv(Handle(s, c))
  {
    HandlerKeepsIds(s, c);
    HandlerKeepsOne(s, c);
    HandlerKeepsTokens(s, c);
    HandlerKeepsStreams(s, c);
  }

  lemma RequestKeepsNames(s: State, c: ConnId, req: Req)
    requires TokensNamed(s.slot) && StreamsNamed(s) && Can(s, Request(c, req))
    ensures TokensNamed(s.slot.Goto(c, Entry(req))) && StreamsNamed(Step(s, Request(c, req)))
  {
    var s' := Step(s, Request(c, req));
    var a, b := s.slot, s'.slot;
    forall d | d in b.handlers && HasToken(b.handlers[d]) && b.handlers[d].task !in b.cancelled
      ensures Named(b, d, b.handlers[d].task)
    {
      StillNamed(a, b, c, d, b.handlers[d].task);
    }
    forall t | Streaming(s', t)
      ensures Named(b, s'.tasks[t].conn, t)
    {
      assert Streaming(s, t);
      StillNamed(a, b, c, s.tasks[t].conn, t);
    }
  }

  lemma RequestKeepsInv(s: State, c: ConnId, req: Req)
    requires Inv(s) && Can(s, Request(c, req)) && Courteous(s, Request(c, req))
    ensures Inv(Step(s, Request(c, req)))
  {
    RequestKeepsNames(s, c, req);
    RequestKeepsIds(s.slot, s.tasks, c, req);
  }

  lemma RequestKeepsIds(slot: Slot, tasks: map<TaskId, Task>, c: ConnId, req: Req)
    requires Ids(slot, tasks)
    ensures Ids(slot.Goto(c, Entry(req)), tasks)
  {
  }

  lemma StepKeepsInv(s: State, a: Action)
    requires Inv(s) && Can(s, a) && Courteous(s, a)
    ensures Inv(Step(s, a))
  {
    match a {
      case Reader(_) =>
        assert forall t :: Streaming(Step(s, a), t) ==> Streaming(s, t);
      case RunTask(t) => TaskKeepsInv(s, t);
      case Offer(t, o) => OfferKeepsInv(s, t, o);
      case Request(c, req) => RequestKeepsInv(s, c, req);
      case RunHandler(c) => HandlerKeepsInv(s, c);
    }
  }

  lemma {:induction false} EveryCourteousRunKeepsInv(cap: nat, acts: seq<Action>)
    requires After(Init(cap), acts).Some? && CourteousRun(cap, acts)
    ensures Inv(After(Init(cap), acts).value)
  {
    if acts != [] {
      EveryCourteousRunKeepsInv(cap, acts[..|acts| - 1]);
      StepKeepsInv(After(Init(cap), acts[..|acts| - 1]).value, acts[|acts| - 1]);
    }
  }

  // ---- at most one ----

  /** A stream a handler has taken the slot from is not the one the slot names. */
  ghost predicate OwedIsReplaced(slot: Slot) {
    forall c :: c in slot.handlers && slot.handlers[c].Evict? && slot.handlers[c].prior.Some? && slot.attacher.Some? ==>
                  slot.attacher.value.task != slot.handlers[c].prior.value.task
  }

  lemma StepKeepsReplaced(s: State, a: Action)
    requires Ids(s.slot, s.tasks) && OwedIsReplaced(s.slot) && Can(s, a)
    ensures OwedIsReplaced(Step(s, a).slot)
  {
    if a.RunHandler? {
      HandlerKeepsReplaced(s.slot, s.sess, a.conn);
    }
  }

  lemma HandlerKeepsReplaced(slot: Slot, sess: Session, c: ConnId)
    requires KnownIds(slot) && OwedIsReplaced(slot) && slot.Handler(c) != Idle && slot.Handler(c) != Closed
    ensures OwedIsReplaced(HandlerStep(slot, sess, c))
  {
  }

  lemma {:induction false} CourteousRunsReplace(cap: nat, acts: seq<Action>)
    requires After(Init(cap), acts).Some? && CourteousRun(cap, acts)
    ensures OwedIsReplaced(After(Init(cap), acts).value.slot)
  {
    if acts != [] {
      CourteousRunsReplace(cap, acts[..|acts| - 1]);
      EveryCourteousRunKeepsInv(cap, acts[..|acts| - 1]);
      StepKeepsReplaced(After(Init(cap), acts[..|acts| - 1]).value, acts[|acts| - 1]);
    }
  }

  /** The slot names every stream that is not cancelled, so there is at most one. */
  ghost predicate SlotNamesAll(s: State) {
    forall t :: Streaming(s, t) ==> s.slot.attacher == Some(Attacher(s.tasks[t].conn, t))
  }

  /** A handler stands between taking the slot from a stream still running uncancelled and cancelling it. */
  ghost predicate TakeoverUnderWay(s: State) {
    exists t :: Streaming(s, t) && Owed(s.slot, t)
  }

  /**
   On every courteous run a session has at most one stream that is not cancelled, and the
   slot names it, exactly while no takeover is under way.
   */
  lemma SingleAttacher(cap: nat, acts: seq<Action>)
    requires After(Init(cap), acts).Some? && CourteousRun(cap, acts)
    ensures SlotNamesAll(After(Init(cap), acts).value) <==> !TakeoverUnderWay(After(Init(cap), acts).value)
    ensures var s := After(Init(cap), acts).value;
            !TakeoverUnderWay(s) ==> forall t, u :: Streaming(s, t) && Streaming(s, u) ==> t == u
  {
    EveryCourteousRunKeepsInv(cap, acts);
    CourteousRunsReplace(cap, acts);
    var s := After(Init(cap), acts).value;
    if t :| Streaming(s, t) && Owed(s.slot, t) {
      var c :| c in s.slot.handlers && OwedBy(s.slot.handlers[c], t);
    }
  }

  /** While a takeover is under way the extra stream is one whose cancellation is owed. */
  lemma ExtraStreamsAreOwed(cap: nat, acts: seq<Action>, t: TaskId, u: TaskId)
    requires After(Init(cap), acts).Some? && CourteousRun(cap, acts)
    requires Streaming(After(Init(cap), acts).value, t) && Streaming(After(Init(cap), acts).value, u) && t != u
    ensures var slot := After(Init(cap), acts).value.slot; Owed(slot, t) || Owed(slot, u)
  {
    EveryCourteousRunKeepsInv(cap, acts);
  }

  /**
   Nothing another connection does empties or changes a slot, other than by
   attaching itself: an older connection's exit, detach or teardown leaves a takeover alone.
   */
  lemma OnlyAnAttachTakesTheSlot(s: State, a: Action, k: Attacher)
    requires Can(s, a) && s.slot.attacher == Some(k) && Step(s, a).slot.attacher != Some(k)
    ensures
      match a
      case RunTask(t) => s.tasks[t].conn == k.conn && s.tasks[t].pc == Leave
      case RunHandler(c) => s.slot.Handler(c).Install? || c == k.conn
      case _ => false
  {
  }
}
