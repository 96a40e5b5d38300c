/**
 The stream task, the reader thread and the connection handlers as they are
 written: loops and field updates, each proved to be a run of the steps of
 `StreamProtocol`. What the others do meanwhile shows in what a loop finds at each
 of its accesses.
 */
module StreamLoops {
  import opened Base
  import opened StreamProtocol
  import opened WakeSignal
  import R = RingHistory
  import B = RingBuffer

  // ---- a stream task ----

  /**
   What a stream task finds at one of its accesses: the session, its cancel handle, the data
   signal, the output queue.
   */
  datatype Seen = Seen(sess: Session, cancelled: bool, woken: bool, offered: Offered)

  function Moved(k: Task, e: Seen): Task {
    if k.pc == SendOffer then OfferStep(k, e.offered) else TaskStep(k, e.sess, e.cancelled, e.woken)
  }

  /** The small-step task after `n` accesses. */
  function Moves(k: Task, env: nat -> Seen, n: nat): Task {
    if n == 0 then k else Moved(Moves(k, env, n - 1), env(n - 1))
  }

  /** Each step of a stream task in a run is one such access: what the loop does next depends on nothing else. */
  lemma TaskActionIsMove(s: State, a: Action, t: TaskId)
    requires Can(s, a) && (a == RunTask(t) || (a.Offer? && a.task == t))
    ensures var e := Seen(s.sess, t in s.slot.cancelled, Ready(s.wake, t), if a.Offer? then a.outcome else Full);
            Step(s, a).tasks[t] == Moved(s.tasks[t], e)
  {
  }

  /** How one round of the loop ends: with another, out of the loop, or still waiting when patience ran out. */
  datatype Round = Again | Left | Waiting

  class StreamTask {
    const conn: ConnId
    const start: nat
    const liveAttach: bool
    const env: nat -> Seen
    var n: nat
    var cursor: nat
    var pending: seq<byte>
    var reported: nat
    var frames: seq<Frame>
    var notices: seq<Notice>
    // The small-step task after the same accesses.
    ghost var task: Task

    constructor (conn: ConnId, start: nat, liveAttach: bool, env: nat -> Seen)
      ensures At(Begin) && task == NewTask(conn, start, liveAttach)
      ensures this.conn == conn && this.start == start && this.liveAttach == liveAttach && this.env == env
    {
      this.conn, this.start, this.liveAttach, this.env := conn, start, liveAttach, env;
      n, cursor, pending, reported, frames, notices := 0, start, [], 0, [], [];
      task := NewTask(conn, start, liveAttach);
    }

    ghost predicate Valid()
      reads this`n, this`task
    {
      task == Moves(NewTask(conn, start, liveAttach), env, n)
    }

    /** The small-step task stands at `pc` and has what these fields hold. */
    ghost predicate At(pc: TaskPc)
      reads this
    {
      Valid() && task == Task(conn, pc, start, liveAttach, cursor, pending, reported, frames, notices)
    }

    /** One access to what is shared. */
    method Look() returns (e: Seen)
      requires Valid()
      modifies this`n, this`task
      ensures Valid() && e == env(old(n)) && n == old(n) + 1 && task == Moved(old(task), e)
    {
      e := env(n);
      task := Moved(task, e);
      n := n + 1;
    }

    /** Selecting between the cancel handle, polled first, and room for a frame. */
    method SendFrame(patience: nat) returns (r: Round)
      requires At(SendCancel)
      modifies this`pending, this`frames, this`n, this`task
      ensures frames == if r == Again then old(frames) + [Frame(old(pending), cursor)] else old(frames)
      ensures At(match r case Again => Top case Left => Forget case Waiting => SendCancel)
      ensures n >= old(n) && (r == Waiting ==> n >= patience)
    {
      while n < patience
        invariant At(SendCancel) && n >= old(n) && frames == old(frames) && pending == old(pending)
      {
        var e := Look();
        if e.cancelled {
          return Left;
        }
        e := Look();
        match e.offered {
          case Accepted =>
            frames := frames + [Frame(pending, cursor)];
            pending := [];
            return Again;
          case Disconnected =>
            return Left;
          case Full =>
        }
      }
      r := Waiting;
    }

    /** One poll of the cancel handle and then of the data signal. */
    method PollWake() returns (r: Round)
      requires At(ParkCancel)
      modifies this`n, this`task
      ensures At(match r case Again => Top case Left => Forget case Waiting => ParkCancel)
      ensures n > old(n)
    {
      var e := Look();
      if e.cancelled {
        return Left;
      }
      e := Look();
      if e.woken {
        return Again;
      }
      e := Look();
      r := Waiting;
    }

    /** Selecting between the cancel handle, polled first, and the data signal. */
    method Park(patience: nat) returns (r: Round)
      requires At(ParkCancel)
      modifies this`n, this`task
      ensures At(match r case Again => Top case Left => Forget case Waiting => ParkCancel)
      ensures n >= old(n) && (r == Waiting ==> n >= patience)
    {
      r := Waiting;
      while n < patience && r == Waiting
        invariant At(match r case Again => Top case Left => Forget case Waiting => ParkCancel) && n >= old(n)
        decreases patience - n
      {
        r := PollWake();
      }
    }

    /** Report a drop that happened since the last look. */
    method ReportDrops()
      requires At(Top)
      modifies this`n, this`task, this`reported, this`notices
      ensures At(Read) && n == old(n) + 1
      ensures var drops := env(old(n)).sess.drops;
              && reported == drops
              && notices == if drops != old(reported) then old(notices) + [OutputDropped] else old(notices)
    {
      var e := Look();
      if e.sess.drops != reported {
        reported := e.sess.drops;
        notices := notices + [OutputDropped];
      }
    }

    /** Read at the cursor; `Again` when there is a frame to send. */
    method ReadOutput() returns (r: Option<Round>)
      requires At(Read)
      modifies this`n, this`task, this`cursor, this`pending, this`notices
      ensures At(if r == Some(Again) then SendCancel else if r == Some(Left) then Forget else CheckStatus)
      ensures r != Some(Waiting) && n == old(n) + 1
      ensures var ring := env(old(n)).sess.ring;
              && (r == Some(Left) <==> old(cursor) < ring.Tail() || ring.Head() < old(cursor))
              && (r == Some(Again) ==>
                    && old(cursor) < cursor <= ring.Head() && pending == ring.history[old(cursor)..cursor])
              && (r == None ==> cursor == old(cursor) == ring.Head())
              && notices == if old(cursor) < ring.Tail() && old(cursor) <= ring.Head()
                            then old(notices) + [Evicted(old(cursor))] else old(notices)
    {
      var e := Look();
      match R.ReadAt(e.sess.ring, cursor, STREAM_CHUNK) {
        case Invalid =>
          r := Some(Left);
        case Gap(_) =>
          notices := notices + [Evicted(cursor)];
          r := Some(Left);
        case Data(from, data) =>
          if data != [] {
            cursor := from + |data|;
            pending := data;
            r := Some(Again);
          } else {
            r := None;
          }
      }
    }

    /** With a dead session: announce the exit and leave, unless there is more to read after all. */
    method AtHead() returns (leave: bool)
      requires At(CheckHead)
      modifies this`n, this`task, this`notices
      ensures At(if leave then Forget else ParkCancel) && n == old(n) + 1
      ensures leave <==> env(old(n)).sess.Head() <= cursor
      ensures notices == if leave && liveAttach then old(notices) + [Exited(env(old(n)).sess.Head())] else old(notices)
    {
      var e := Look();
      leave := cursor >= e.sess.Head();
      if leave && liveAttach {
        notices := notices + [Exited(e.sess.Head())];
      }
    }

    /** Caught up: announce the exit of a dead session and leave, or go on to wait. */
    method CaughtUp() returns (leave: bool)
      requires At(CheckStatus)
      modifies this`n, this`task, this`notices
      ensures At(if leave then Forget else ParkCancel) && n > old(n)
      ensures leave <==> !env(old(n)).sess.alive && env(old(n) + 1).sess.Head() <= cursor
      ensures notices == if leave && liveAttach then old(notices) + [Exited(env(old(n) + 1).sess.Head())]
                         else old(notices)
    {
      var e := Look();
      if e.sess.alive {
        return false;
      }
      leave := AtHead();
    }

    /** One pass of the loop body. */
    method OneRound(patience: nat) returns (r: Round)
      requires At(Top)
      modifies this
      ensures At(match r case Again => Top case Left => Forget case Waiting => task.pc)
      ensures n > old(n) && (r == Waiting ==> n >= patience && (task.pc == SendCancel || task.pc == ParkCancel))
    {
      ReportDrops();
      var output := ReadOutput();
      if output == Some(Left) {
        return Left;
      }
      if output == Some(Again) {
        r := SendFrame(patience);
        return;
      }
      var leave := CaughtUp();
      if leave {
        return Left;
      }
      r := Park(patience);
    }

    /** Out of the loop: give up the entry and the slot, which `Attachments.Exit` does. */
    method Exit()
      requires At(Forget)
      modifies this`n, this`task
      ensures At(Done)
    {
      var _ := Look();
      var _ := Look();
    }

    /**
     The whole of a stream task, for any surroundings and for as long as patience
     lasts: what it has sent, reported and kept is what the small steps say, and it
     is done, or ran out of patience at the top of its loop or in a wait.
     */
    method Stream(patience: nat)
      requires At(Begin)
      modifies this
      ensures At(task.pc)
      ensures task.pc == Done || (n >= patience && (task.pc == Top || task.pc == SendCancel || task.pc == ParkCancel))
    {
      var e := Look();
      reported := e.sess.drops;
      var r := Again;
      while n < patience && r == Again
        invariant r == Again ==> At(Top)
        invariant r == Left ==> At(Forget)
        invariant r == Waiting ==> At(task.pc) && n >= patience && (task.pc == SendCancel || task.pc == ParkCancel)
        decreases r == Again, patience - n
      {
        r := OneRound(patience);
      }
      if r == Left {
        Exit();
      }
    }
  }

  // ---- the reader thread ----

  /** One read of the PTY; no bytes is the end of output. */
  datatype PtyRead = Got(data: seq<byte>) | Interrupted | Failed

  predicate EndsOutput(r: PtyRead) {
    r.Failed? || (r.Got? && |r.data| == 0)
  }

  /** What the PTY put out: the reads up to the first end or failure, interruptions aside. */
  function Output(inputs: seq<PtyRead>): seq<seq<byte>> {
    if inputs == [] || EndsOutput(inputs[0]) then []
    else if inputs[0].Interrupted? then Output(inputs[1..])
    else [inputs[0].data] + Output(inputs[1..])
  }

  /** What one read adds to the output. */
  function Piece(r: PtyRead): seq<seq<byte>> {
    if EndsOutput(r) || r.Interrupted? then [] else [r.data]
  }

  lemma OutputFrom(inputs: seq<PtyRead>, i: nat)
    requires i < |inputs|
    ensures Output(inputs[i..]) == Piece(inputs[i]) + if EndsOutput(inputs[i]) then [] else Output(inputs[i + 1..])
  {
    assert inputs[i..][1..] == inputs[i + 1..];
  }

  /** What the reads from `i` on give. */
  function Remaining(inputs: seq<PtyRead>, i: nat, open: bool): seq<seq<byte>>
    requires i <= |inputs|
  {
    if open then Output(inputs[i..]) else []
  }

  lemma NextPiece(done: seq<seq<byte>>, inputs: seq<PtyRead>, i: nat)
    requires i < |inputs|
    ensures done + Remaining(inputs, i, true)
            == (done + Piece(inputs[i])) + Remaining(inputs, i + 1, !EndsOutput(inputs[i]))
  {
    OutputFrom(inputs, i);
    Regroup(done, Piece(inputs[i]), Remaining(inputs, i + 1, !EndsOutput(inputs[i])));
  }

  /** The chunks a reader's acts stored or failed to store. */
  function Chunks(acts: seq<ReaderAct>): seq<seq<byte>> {
    if acts == [] then []
    else
      var init := Chunks(acts[..|acts| - 1]);
      match acts[|acts| - 1]
      case Store(data) => init + [data]
      case Refuse(data) => init + [data]
      case _ => init
  }

  function Signalled(acts: seq<ReaderAct>): nat {
    if acts == [] then 0 else Signalled(acts[..|acts| - 1]) + (if Signals(acts[|acts| - 1]) then 1 else 0)
  }

  /** The session after the reader's acts, if each was possible in its turn. */
  function ReaderRun(s: Session, acts: seq<ReaderAct>): Option<Session> {
    if acts == [] then Some(s)
    else
      match ReaderRun(s, acts[..|acts| - 1])
      case None => None
      case Some(m) => if ReaderCan(m, acts[|acts| - 1]) then Some(ReaderStep(m, acts[|acts| - 1])) else None
  }

  lemma OneMoreAct(s: Session, acts: seq<ReaderAct>, a: ReaderAct)
    requires ReaderRun(s, acts).Some? && ReaderCan(ReaderRun(s, acts).value, a)
    ensures ReaderRun(s, acts + [a]) == Some(ReaderStep(ReaderRun(s, acts).value, a))
    ensures Signalled(acts + [a]) == Signalled(acts) + if Signals(a) then 1 else 0
    ensures Chunks(acts + [a]) == Chunks(acts) + if a.Store? || a.Refuse? then [a.data] else []
  {
    assert (acts + [a])[..|acts|] == acts;
  }

  class ReaderThread {
    const ring: B.Ring
    var alive: bool
    var drops: nat
    /** Calls of `notify_one` so far. */
    var signals: nat
    // The small steps taken, and the session they started from.
    ghost const first: Session
    ghost var acts: seq<ReaderAct>

    constructor (ring: B.Ring)
      requires ring.Valid()
      ensures this.ring == ring && At(Reading) && acts == []
      ensures first == Session(ring.View(), true, 0, Reading)
    {
      this.ring, alive, drops, signals := ring, true, 0, 0;
      first, acts := Session(ring.View(), true, 0, Reading), [];
    }

    ghost predicate At(pc: ReaderPc)
      reads this, ring, ring.buf
    {
      && ring.Valid()
      && ReaderRun(first, acts) == Some(Session(ring.View(), alive, drops, pc))
      && signals == Signalled(acts)
    }

    method NotifyOne(pc: ReaderPc)
      requires At(pc) && ((pc.Signalling? && pc.left > 0) || pc == Announcing)
      modifies this`signals, this`acts
      ensures At(if pc.Signalling? then AfterSignal(pc.left) else Gone) && Chunks(acts) == Chunks(old(acts))
      ensures signals == old(signals) + 1
    {
      signals := signals + 1;
      OneMoreAct(first, acts, if pc.Signalling? then Notify else Announce);
      acts := acts + [if pc.Signalling? then Notify else Announce];
    }

    /** Count a chunk that could not be stored, and wake the stream for it. */
    method NoteOutputDropped()
      requires At(Counting)
      modifies this`drops, this`signals, this`acts
      ensures At(Signalling(1)) && Chunks(acts) == Chunks(old(acts))
      ensures drops == old(drops) + 1 && signals == old(signals) + 1
    {
      drops := drops + 1;
      OneMoreAct(first, acts, Count);
      acts := acts + [Count];
      NotifyOne(Signalling(2));
    }

    /** Store one chunk in the ring, or not for want of memory, which `Counting` or `Signalling` shows. */
    method PushChunk(data: seq<byte>, granted: bool) returns (stored: bool)
      requires At(Reading) && data != []
      modifies this`acts, ring, ring.buf
      ensures At(if stored then Signalling(1) else Counting) && (ring.buf == old(ring.buf) || fresh(ring.buf))
      ensures Chunks(acts) == Chunks(old(acts)) + [data]
      ensures ring.View().history == old(ring.View()).history + (if stored then data else [])
      ensures granted || ring.cap == 0 ==> stored
    {
      ghost var s := Session(ring.View(), alive, drops, Reading);
      stored := ring.Push(data, granted);
      ghost var act := if stored then Store(data) else Refuse(data);
      OneMoreAct(first, acts, act);
      assert ReaderStep(s, act) == Session(ring.View(), alive, drops, if stored then Signalling(1) else Counting);
      acts := acts + [act];
    }

    /** Store one chunk, or drop it, and wake the stream. */
    method TakeChunk(data: seq<byte>, granted: bool)
      requires At(Reading) && data != []
      modifies this`drops, this`signals, this`acts, ring, ring.buf
      ensures At(Reading) && (ring.buf == old(ring.buf) || fresh(ring.buf))
      ensures Chunks(acts) == Chunks(old(acts)) + [data]
      ensures var h, h' := old(ring.View()).history, ring.View().history;
              || (h' == h + data && drops == old(drops) && signals == old(signals) + 1)
              || (h' == h && drops == old(drops) + 1 && signals == old(signals) + 2 && !granted)
    {
      var stored := PushChunk(data, granted);
      if !stored {
        NoteOutputDropped();
      }
      NotifyOne(Signalling(1));
    }

    /** Act on one read; false at the end of output. */
    method TakeRead(input: PtyRead, granted: bool) returns (open: bool)
      requires At(Reading)
      modifies this`drops, this`signals, this`acts, ring, ring.buf
      ensures At(Reading) && (ring.buf == old(ring.buf) || fresh(ring.buf))
      ensures open == !EndsOutput(input) && Chunks(acts) == Chunks(old(acts)) + Piece(input)
      ensures drops >= old(drops) && signals == old(signals) + |Piece(input)| + (drops - old(drops))
    {
      open := true;
      match input {
        case Got(data) =>
          if |data| == 0 {
            open := false;
          } else {
            TakeChunk(data, granted);
          }
        case Interrupted =>
        case Failed =>
          open := false;
      }
    }

    /**
     The reader thread to its end: exactly the PTY's output is stored or counted
     dropped, in order, with a signal for every chunk and another for every drop, and
     only then is the session dead, with one signal more.
     */
    method ReadUntilExit(inputs: seq<PtyRead>, granted: nat -> bool)
      requires At(Reading) && acts == []
      modifies this, ring, ring.buf
      ensures At(Gone) && !alive && Chunks(acts) == Output(inputs)
      ensures drops >= old(drops) && signals == old(signals) + |Output(inputs)| + (drops - old(drops)) + 1
    {
      var i := 0;
      var open := true;
      assert inputs[0..] == inputs;
      while open && i < |inputs|
        invariant i <= |inputs| && At(Reading) && (ring.buf == old(ring.buf) || fresh(ring.buf))
        invariant Output(inputs) == Chunks(acts) + Remaining(inputs, i, open)
        invariant drops >= old(drops) && signals == old(signals) + |Chunks(acts)| + (drops - old(drops))
        decreases |inputs| - i
      {
        NextPiece(Chunks(acts), inputs, i);
        open := TakeRead(inputs[i], granted(i));
        i := i + 1;
      }
      RecordExit();
    }

    /** The status is set after the last push, and signalled. */
    method RecordExit()
      requires At(Reading)
      modifies this`alive, this`signals, this`acts
      ensures At(Gone) && !alive && Chunks(acts) == Chunks(old(acts)) && signals == old(signals) + 1
    {
      OneMoreAct(first, acts, EndOfOutput);
      acts := acts + [EndOfOutput];
      alive := false;
      OneMoreAct(first, acts, SetStatus);
      acts := acts + [SetStatus];
      NotifyOne(Announcing);
    }
  }

  // ---- the connection handlers ----

  /** `n` steps of the handler of `c` in a row, with nobody in between. */
  function Handled(slot: Slot, s: Session, c: ConnId, n: nat): Slot {
    if n == 0 then slot else HandlerStep(Handled(slot, s, c, n - 1), s, c)
  }

  lemma {:induction false} HandledInTurn(slot: Slot, s: Session, c: ConnId, first: nat, more: nat)
    ensures Handled(slot, s, c, first + more) == Handled(Handled(slot, s, c, first), s, c, more)
  {
    if more > 0 {
      HandledInTurn(slot, s, c, first, more - 1);
    }
  }

  /** Reading the head, then the tail, and deciding. */
  lemma DecidingSteps(slot: Slot, s: Session, c: ConnId)
    requires slot.Handler(c).AskHead?
    ensures var reply := DecideAttach(slot.Handler(c).mode, s.Head(), s.ring.Tail());
            Handled(slot, s, c, 2) == slot.Goto(c, if reply.Start? then Install(reply.at) else Idle)
  {
    assert Handled(slot, s, c, 1) == slot.Goto(c, AskTail(slot.Handler(c).mode, s.Head()));
  }

  /** The stream of an attacher that is replaced. */
  function Replaced(a: Option<Attacher>): set<TaskId> {
    if a.Some? then {a.value.task} else {}
  }

  function EntryOf(streams: map<ConnId, TaskId>, c: ConnId): set<TaskId> {
    if c in streams then {streams[c]} else {}
  }

  /** The session's attacher slot, the connections' `streams` entries for it, and the cancel handles notified. */
  class Attachments {
    var attacher: Option<Attacher>
    var streams: map<ConnId, TaskId>
    var cancelled: set<TaskId>
    var next: TaskId

    constructor ()
      ensures attacher == None && streams == map[] && cancelled == {} && next == 0
    {
      attacher, streams, cancelled, next := None, map[], {}, 0;
    }

    ghost function AsSlot(c: ConnId, pc: HandlerPc): Slot
      reads this
    {
      Slot(attacher, streams, cancelled, map[c := pc], next)
    }

    method Attach(a: Attacher) returns (prior: Option<Attacher>)
      modifies this`attacher
      ensures attacher == Some(a) && prior == old(attacher)
    {
      prior := attacher;
      attacher := Some(a);
    }

    method Detach(c: ConnId)
      modifies this`attacher
      ensures attacher == if old(IsAttachedBy(c)) then None else old(attacher)
      ensures forall d, pc :: AsSlot(d, pc) == old(AsSlot(d, pc)).Vacate(c)
    {
      if attacher.Some? && attacher.value.conn == c {
        attacher := None;
      }
    }

    predicate IsAttachedBy(c: ConnId)
      reads this
    {
      attacher.Some? && attacher.value.conn == c
    }

    /** Cancel the stream a connection has an entry for, and drop the entry. */
    method CancelEntry(c: ConnId) returns (had: bool)
      modifies this`streams, this`cancelled
      ensures forall d, pc :: AsSlot(d, pc) == old(AsSlot(d, pc)).CancelEntry(c)
      ensures had == (c in old(streams)) && streams == old(streams) - {c}
      ensures cancelled == old(cancelled) + if had then {old(streams)[c]} else {}
    {
      had := c in streams;
      if had {
        cancelled := cancelled + {streams[c]};
        streams := streams - {c};
      }
    }

    method HandleAttach(c: ConnId, mode: AttachMode, head: nat, tail: nat, ghost s: Session)
      returns (reply: AttachReply, ghost steps: nat)
      requires head == s.Head() && tail == s.ring.Tail()
      modifies this
      ensures reply == DecideAttach(mode, head, tail) && steps == if reply.Start? then 7 else 2
      ensures AsSlot(c, Idle) == Handled(old(AsSlot(c, AskHead(mode))), s, c, steps)
      ensures reply.Start? ==>
                && attacher == Some(Attacher(c, old(next))) && next == old(next) + 1
                && streams == old(streams)[c := old(next)]
                && cancelled == old(cancelled) + Replaced(old(attacher)) + EntryOf(old(streams), c)
      ensures !reply.Start? ==>
                attacher == old(attacher) && streams == old(streams) && cancelled == old(cancelled) && next == old(next)
    {
      reply := DecideAttach(mode, head, tail);
      ghost var h := AsSlot(c, AskHead(mode));
      steps := 2;
      DecidingSteps(h, s, c);
      if !reply.Start? {
        assert AsSlot(c, Idle) == h.Goto(c, Idle);
        return;
      }
      assert AsSlot(c, Install(reply.at)) == h.Goto(c, Install(reply.at));
      var task := TakeSlot(c, reply.at, s);
      HandledInTurn(h, s, c, steps, steps);
      ghost var rest := RecordStream(c, task, reply.at, s);
      HandledInTurn(h, s, c, steps + steps, rest);
      steps := steps + steps + rest;
    }

    /** Install the connection as the attacher and cancel the stream the slot is taken from. */
    method TakeSlot(c: ConnId, at: nat, ghost s: Session) returns (task: TaskId)
      modifies this
      ensures task == old(next)
      ensures AsSlot(c, Record(task, at)) == Handled(old(AsSlot(c, Install(at))), s, c, 2)
      ensures attacher == Some(Attacher(c, task)) && next == task + 1 && streams == old(streams)
      ensures cancelled == old(cancelled) + Replaced(old(attacher))
    {
      ghost var h := AsSlot(c, Install(at));
      task := next;
      next := next + 1;
      var prior := Attach(Attacher(c, task));
      assert Handled(h, s, c, 1) == AsSlot(c, Evict(task, at, prior));
      if prior.Some? {
        cancelled := cancelled + {prior.value.task};
      }
    }

    /** Enter the new stream for the connection, cancelling the one entered before. */
    method RecordStream(c: ConnId, task: TaskId, at: nat, ghost s: Session) returns (ghost steps: nat)
      modifies this`streams, this`cancelled
      ensures steps == 3 && AsSlot(c, Idle) == Handled(old(AsSlot(c, Record(task, at))), s, c, steps)
      ensures streams == old(streams)[c := task] && cancelled == old(cancelled) + EntryOf(old(streams), c)
    {
      ghost var h := AsSlot(c, Record(task, at));
      var _ := CancelEntry(c);
      streams := streams[c := task];
      assert Handled(h, s, c, 1) == AsSlot(c, AskAlive(task, at));
      assert Handled(h, s, c, 2) == AsSlot(c, Spawn(task, at, s.alive));
      steps := 3;
    }

    method HandleDetach(c: ConnId, ghost s: Session) returns (ok: bool)
      modifies this
      ensures ok == old(IsAttachedBy(c))
      ensures AsSlot(c, Idle) == Handled(old(AsSlot(c, CheckAttached)), s, c, if ok then 3 else 1)
      ensures ok ==> attacher == None && streams == old(streams) - {c} && next == old(next)
                     && cancelled == old(cancelled) + EntryOf(old(streams), c)
      ensures !ok ==>
                attacher == old(attacher) && streams == old(streams) && cancelled == old(cancelled) && next == old(next)
    {
      ghost var h := AsSlot(c, CheckAttached);
      ok := IsAttachedBy(c);
      if !ok {
        assert Handled(h, s, c, 1) == AsSlot(c, Idle);
        return;
      }
      assert Handled(h, s, c, 1) == AsSlot(c, CancelOwn);
      var _ := CancelEntry(c);
      assert Handled(h, s, c, 2) == AsSlot(c, ClearSlot);
      Detach(c);
    }

    /** What a closing connection does for this session. */
    method Teardown(c: ConnId, ghost s: Session)
      modifies this
      ensures AsSlot(c, Closed) == Handled(old(AsSlot(c, Drain)), s, c, if c in old(streams) then 2 else 1)
      ensures streams == old(streams) - {c} && cancelled == old(cancelled) + EntryOf(old(streams), c)
      ensures attacher == if c in old(streams) && old(IsAttachedBy(c)) then None else old(attacher)
      ensures next == old(next)
    {
      ghost var h := AsSlot(c, Drain);
      var had := CancelEntry(c);
      if had {
        assert Handled(h, s, c, 1) == AsSlot(c, ClearDrained);
        Detach(c);
      }
    }

    /** A stream task's way out: drop the connection's entry if it is still its own, then detach the connection. */
    method Exit(c: ConnId, t: TaskId)
      modifies this
      ensures forall d, pc :: AsSlot(d, pc) == SlotAfter(SlotAfter(old(AsSlot(d, pc)), t, c, Forget), t, c, Leave)
      ensures streams == if c in old(streams) && old(streams)[c] == t then old(streams) - {c} else old(streams)
      ensures attacher == if old(IsAttachedBy(c)) then None else old(attacher)
      ensures cancelled == old(cancelled) && next == old(next)
    {
      if c in streams && streams[c] == t {
        streams := streams - {c};
      }
      Detach(c);
    }
  }
}
