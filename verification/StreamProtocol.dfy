/**
 Streaming one session to its attachers, as the small steps of the threads and
 tasks that take part: the PTY reader thread, one handler per connection (a
 connection reads its requests one at a time) and any number of stream tasks.
 A step is one lock, one atomic access, one poll of one future, or one send.
 */
module StreamProtocol {
  import opened Base
  import opened WakeSignal
  import R = RingHistory

  /** Most bytes one ring read hands a stream. */
  const STREAM_CHUNK: nat := 256 * 1024

  type ConnId = nat
  /** One attach, one stream task, one cancel handle: all named by this. */
  type TaskId = nat

  // ---- the session ----

  datatype ReaderPc = Reading | Counting | Signalling(left: nat) | Reaping | Announcing | Gone

  datatype Session = Session(ring: R.Window, alive: bool, drops: nat, reader: ReaderPc) {
    function Head(): nat { ring.Head() }

    /** The reader thread has changed something and not yet signalled it. */
    predicate SignalOwed() {
      reader.Counting? || (reader.Signalling? && reader.left > 0) || reader.Announcing?
    }
  }

  // ---- stream tasks ----

  /** One `SessionOutput`. */
  datatype Frame = Frame(data: seq<byte>, headCursor: nat)

  /** Control frames a stream sends its connection: ALLOC_FAILED, backpressure eviction, SessionExited. */
  datatype Notice = OutputDropped | Evicted(lastCursor: nat) | Exited(headCursor: nat)

  datatype TaskPc =
    | Begin | Top | Read | SendCancel | SendOffer | CheckStatus | CheckHead
    | ParkCancel | ParkWoken | Parked | Forget | Leave | Done

  datatype Task = Task(
    conn: ConnId, pc: TaskPc, start: nat, liveAttach: bool, cursor: nat, pending: seq<byte>,
    reported: nat, frames: seq<Frame>, notices: seq<Notice>) {

    /** The cursor after the last frame enqueued. */
    function DeliveredEnd(): nat {
      if frames == [] then start else frames[|frames| - 1].headCursor
    }

    /** Out of the streaming loop. */
    predicate Ended() {
      pc == Forget || pc == Leave || pc == Done
    }
  }

  datatype Offered = Accepted | Full | Disconnected

  // ---- attaching ----

  datatype AttachMode = LiveOnly | FromEarliest | FromCursor(from: nat)
  datatype AttachReply = Start(at: nat) | BufferGap(earliest: nat) | InvalidArgument

  function DecideAttach(mode: AttachMode, head: nat, tail: nat): AttachReply {
    match mode
    case LiveOnly => Start(head)
    case FromEarliest => Start(tail)
    case FromCursor(from) =>
      if from > head then InvalidArgument else if from < tail then BufferGap(tail) else Start(from)
  }

  datatype Attacher = Attacher(conn: ConnId, task: TaskId)

  datatype HandlerPc =
    | Idle
    | AskHead(mode: AttachMode)
    | AskTail(mode: AttachMode, head: nat)
    | Install(at: nat)
    | Evict(task: TaskId, at: nat, prior: Option<Attacher>)
    | Record(task: TaskId, at: nat)
    | AskAlive(task: TaskId, at: nat)
    | Spawn(task: TaskId, at: nat, live: bool)
    | CheckAttached | CancelOwn | ClearSlot
    | Drain | ClearDrained | Closed

  datatype Req = Attach(mode: AttachMode) | Detach | Close

  /** The attacher slot, each connection's `streams` entry for the session, and the cancel handles notified. */
  datatype Slot = Slot(
    attacher: Option<Attacher>, streams: map<ConnId, TaskId>, cancelled: set<TaskId>,
    handlers: map<ConnId, HandlerPc>, next: TaskId) {

    function Handler(c: ConnId): HandlerPc {
      if c in handlers then handlers[c] else Idle
    }

    function Goto(c: ConnId, pc: HandlerPc): Slot {
      this.(handlers := handlers[c := pc])
    }

    /** `Session::detach`. */
    function Vacate(c: ConnId): Slot {
      if attacher.Some? && attacher.value.conn == c then this.(attacher := None) else this
    }

    function CancelEntry(c: ConnId): Slot {
      if c in streams then this.(cancelled := cancelled + {streams[c]}, streams := streams - {c}) else this
    }
  }

  datatype State = State(sess: Session, wake: Signal, slot: Slot, tasks: map<TaskId, Task>)

  function Init(cap: nat): State {
    State(Session(R.New(cap), true, 0, Reading), Quiet(), Slot(None, map[], {}, map[], 0), map[])
  }

  // ---- steps of the reader thread ----

  datatype ReaderAct =
    | Store(data: seq<byte>) | Refuse(data: seq<byte>) | Count | Notify
    | EndOfOutput | SetStatus | Announce

  predicate ReaderCan(s: Session, a: ReaderAct) {
    match a
    case Store(data) => s.reader == Reading && data != []
    case Refuse(data) => s.reader == Reading && data != []
    case Count => s.reader == Counting
    case Notify => s.reader.Signalling? && s.reader.left > 0
    case EndOfOutput => s.reader == Reading
    case SetStatus => s.reader == Reaping
    case Announce => s.reader == Announcing
  }

  function AfterSignal(left: nat): ReaderPc {
    if left <= 1 then Reading else Signalling(left - 1)
  }

  function ReaderStep(s: Session, a: ReaderAct): Session {
    match a
    case Store(data) => s.(ring := R.Apply(s.ring, R.Stored(data)), reader := Signalling(1))
    case Refuse(data) => s.(ring := R.Apply(s.ring, R.Refused(data)), reader := Counting)
    case Count => s.(drops := s.drops + 1, reader := Signalling(2))
    case Notify => s.(reader := if s.reader.Signalling? then AfterSignal(s.reader.left) else s.reader)
    case EndOfOutput => s.(reader := Reaping)
    case SetStatus => s.(alive := false, reader := Announcing)
    case Announce => s.(reader := Gone)
  }

  predicate Signals(a: ReaderAct) {
    a.Notify? || a.Announce?
  }

  // ---- steps of a stream task ----

  /** What a task does to itself at `pc`, given what it reads of the session and of its cancel handle. */
  function TaskStep(k: Task, s: Session, cancelled: bool, woken: bool): Task {
    match k.pc
    case Begin => k.(reported := s.drops, pc := Top)
    case Top =>
      if s.drops != k.reported then k.(reported := s.drops, notices := k.notices + [OutputDropped], pc := Read)
      else k.(pc := Read)
    case Read => (
      match R.ReadAt(s.ring, k.cursor, STREAM_CHUNK)
      case Invalid => k.(pc := Forget)
      case Gap(_) => k.(notices := k.notices + [Evicted(k.cursor)], pc := Forget)
      case Data(from, data) =>
        if data != [] then k.(cursor := from + |data|, pending := data, pc := SendCancel)
        else k.(pc := CheckStatus))
    case SendCancel => if cancelled then k.(pc := Forget) else k.(pc := SendOffer)
    case SendOffer => k
    case CheckStatus => if s.alive then k.(pc := ParkCancel) else k.(pc := CheckHead)
    case CheckHead =>
      if k.cursor < s.Head() then k.(pc := ParkCancel)
      else if k.liveAttach then k.(notices := k.notices + [Exited(s.Head())], pc := Forget)
      else k.(pc := Forget)
    case ParkCancel => if cancelled then k.(pc := Forget) else k.(pc := ParkWoken)
    case ParkWoken => if woken then k.(pc := Top) else k.(pc := Parked)
    case Parked => k.(pc := ParkCancel)
    case Forget => k.(pc := Leave)
    case Leave => k.(pc := Done)
    case Done => k
  }

  function OfferStep(k: Task, o: Offered): Task {
    match o
    case Accepted => k.(frames := k.frames + [Frame(k.pending, k.cursor)], pending := [], pc := Top)
    case Full => k.(pc := SendCancel)
    case Disconnected => k.(pc := Forget)
  }

  /** The data signal after task `t` at `pc` moves: polled when parking, given up when a parked task is cancelled. */
  function WakeAfter(n: Signal, t: TaskId, pc: TaskPc, cancelled: bool): Signal {
    if pc == ParkWoken then Poll(n, t)
    else if pc == ParkCancel && cancelled then Abandon(n, t)
    else n
  }

  /** On the way out a task drops its connection's entry if that is still its own, then detaches its connection. */
  function SlotAfter(slot: Slot, t: TaskId, conn: ConnId, pc: TaskPc): Slot {
    if pc == Forget && conn in slot.streams && slot.streams[conn] == t then slot.(streams := slot.streams - {conn})
    else if pc == Leave then slot.Vacate(conn)
    else slot
  }

  function Run(s: State, t: TaskId): State
    requires t in s.tasks
  {
    var k := s.tasks[t];
    var cancelled := t in s.slot.cancelled;
    State(
      s.sess,
      WakeAfter(s.wake, t, k.pc, cancelled),
      SlotAfter(s.slot, t, k.conn, k.pc),
      s.tasks[t := TaskStep(k, s.sess, cancelled, Ready(s.wake, t))])
  }

  // ---- steps of a connection's handler ----

  /** Everything a handler step changes but the spawn itself. */
  function HandlerStep(slot: Slot, s: Session, c: ConnId): Slot {
    match slot.Handler(c)
    case Idle => slot
    case AskHead(mode) => slot.Goto(c, AskTail(mode, s.Head()))
    case AskTail(mode, head) => (
      match DecideAttach(mode, head, s.ring.Tail())
      case Start(at) => slot.Goto(c, Install(at))
      case _ => slot.Goto(c, Idle))
    case Install(at) =>
      slot.(attacher := Some(Attacher(c, slot.next)), next := slot.next + 1)
          .Goto(c, Evict(slot.next, at, slot.attacher))
    case Evict(k, at, prior) =>
      slot.(cancelled := if prior.Some? then slot.cancelled + {prior.value.task} else slot.cancelled)
          .Goto(c, Record(k, at))
    case Record(k, at) =>
      var cleared := slot.CancelEntry(c);
      cleared.(streams := cleared.streams[c := k]).Goto(c, AskAlive(k, at))
    case AskAlive(k, at) => slot.Goto(c, Spawn(k, at, s.alive))
    case Spawn(_, _, _) => slot.Goto(c, Idle)
    case CheckAttached =>
      if slot.attacher.Some? && slot.attacher.value.conn == c then slot.Goto(c, CancelOwn) else slot.Goto(c, Idle)
    case CancelOwn => slot.CancelEntry(c).Goto(c, ClearSlot)
    case ClearSlot => slot.Vacate(c).Goto(c, Idle)
    case Drain => if c in slot.streams then slot.CancelEntry(c).Goto(c, ClearDrained) else slot.Goto(c, Closed)
    case ClearDrained => slot.Vacate(c).Goto(c, Closed)
    case Closed => slot
  }

  function NewTask(c: ConnId, at: nat, live: bool): Task {
    Task(c, Begin, at, live, at, [], 0, [], [])
  }

  function Handle(s: State, c: ConnId): State {
    var h := s.slot.Handler(c);
    s.(slot := HandlerStep(s.slot, s.sess, c),
       tasks := if h.Spawn? then s.tasks[h.task := NewTask(c, h.at, h.live)] else s.tasks)
  }

  function Entry(r: Req): HandlerPc {
    match r
    case Attach(mode) => AskHead(mode)
    case Detach => CheckAttached
    case Close => Drain
  }

  // ---- runs ----

  datatype Action = Reader(act: ReaderAct) | RunTask(task: TaskId) | Offer(task: TaskId, outcome: Offered)
                  | Request(conn: ConnId, req: Req) | RunHandler(conn: ConnId)

  predicate Can(s: State, a: Action) {
    match a
    case Reader(act) => ReaderCan(s.sess, act)
    case RunTask(t) => t in s.tasks && s.tasks[t].pc != SendOffer && s.tasks[t].pc != Done
    case Offer(t, _) => t in s.tasks && s.tasks[t].pc == SendOffer
    case Request(c, _) => s.slot.Handler(c) == Idle
    case RunHandler(c) => s.slot.Handler(c) != Idle && s.slot.Handler(c) != Closed
  }

  function Step(s: State, a: Action): State
    requires Can(s, a)
  {
    match a
    case Reader(act) =>
      s.(sess := ReaderStep(s.sess, act), wake := if Signals(act) then NotifyOne(s.wake) else s.wake)
    case RunTask(t) => Run(s, t)
    case Offer(t, o) => s.(tasks := s.tasks[t := OfferStep(s.tasks[t], o)])
    case Request(c, req) => s.(slot := s.slot.Goto(c, Entry(req)))
    case RunHandler(c) => Handle(s, c)
  }

  /** The state a sequence of actions leads to, if each was possible in its turn. */
  function After(s: State, acts: seq<Action>): Option<State> {
    if acts == [] then Some(s)
    else
      match After(s, acts[..|acts| - 1])
      case None => None
      case Some(m) => if Can(m, acts[|acts| - 1]) then Some(Step(m, acts[|acts| - 1])) else None
  }

  lemma AfterMore(s: State, acts: seq<Action>, a: Action)
    requires After(s, acts).Some? && Can(After(s, acts).value, a)
    ensures After(s, acts + [a]) == Some(Step(After(s, acts).value, a))
  {
    assert (acts + [a])[..|acts|] == acts;
  }

  lemma {:induction false} AfterCons(s: State, a: Action, rest: seq<Action>)
    requires Can(s, a)
    ensures After(s, [a] + rest) == After(Step(s, a), rest)
  {
    if rest == [] {
      assert ([a] + rest)[..0] == [];
    } else {
      AfterCons(s, a, rest[..|rest| - 1]);
      assert ([a] + rest)[..|rest|] == [a] + rest[..|rest| - 1];
    }
  }

  lemma {:induction false} AfterConcat(s: State, first: seq<Action>, rest: seq<Action>)
    requires After(s, first).Some?
    ensures After(s, first + rest) == After(After(s, first).value, rest)
  {
    if rest == [] {
      assert first + rest == first;
    } else {
      AfterConcat(s, first, rest[..|rest| - 1]);
      assert (first + rest)[..|first + rest| - 1] == first + rest[..|rest| - 1];
    }
  }

  lemma AfterOne(s: State, a: Action)
    requires Can(s, a)
    ensures After(s, [a]) == Some(Step(s, a))
  {
    assert [a][..0] == [];
  }

  lemma AfterTwo(s: State, a: Action, b: Action)
    requires Can(s, a) && Can(Step(s, a), b)
    ensures After(s, [a, b]) == Some(Step(Step(s, a), b))
  {
    AfterOne(s, a);
    assert [a, b][..1] == [a];
  }
}
