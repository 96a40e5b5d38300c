/**
 A session's output across daemon restarts, dropped connections and resyncs. The
 holder's ring and the daemon's tables survive a crash; the daemon, its queue of
 unwritten events and the frames on the wire do not. A restarted daemon reads its cold
 history, attaches the ring at the persisted cursor and continues the event sequence.
 */
module ColdStitch {
  import opened Base
  import opened StreamProtocol
  import opened EventStore
  import opened ColdLog
  import R = RingHistory

  /**
   The holder's side of the connection: whether the stream started last has not been evicted,
   where it stands, the frame it is offering, frames that streams it replaced were offering,
   where replaced streams stand that will read once more before they see that they are
   cancelled, what is on the way, and backpressure evictions on the way. The daemon's side:
   evictions received and not yet handled, attach requests on their way, the start decided for
   the one being served, cursors that BUFFER_GAP answers gave and the route's is about to be
   set to, the route's cursor, and the drain loop's `persistFrom` and `lastSeq`; then the events
   not yet written. Those remain when the drain loop has ended.
   */
  datatype Daemon =
    | Down
    | Up(live: bool, sent: nat, offering: Option<Frame>, stragglers: seq<Frame>, leaving: seq<nat>, wire: seq<Frame>,
         evictions: nat, notices: nat, asks: seq<AttachMode>, starting: Option<nat>, settling: seq<nat>, got: nat,
         persistFrom: nat, lastSeq: nat, queue: seq<Event>)
    | Ended(lastSeq: nat, queue: seq<Event>)

  /** `lost`: positions the persisted cursor passed over. */
  datatype World = World(ring: R.Window, log: Log, daemon: Daemon, lost: set<nat>)

  /**
   `Evict` is the stream finding itself lapped and `Hear` its notice arriving, ahead of output
   if need be. `Receive` is output arriving at the route. `Ask` is the drain loop handling a
   notice: it asks to attach at the route's cursor. `Serve` is the holder deciding on the oldest
   request of the same connection, and `Land` its cancelling the stream before, in whose place
   the new one starts. `Straggle` is a replaced stream's last frame getting through or not, and
   `Lapse` one finding itself lapped as it reads once more. `Settle` is the route's cursor being
   set to what a BUFFER_GAP answer gave, or that answer getting lost. `Reconnect` is a new
   connection and its attach; the last `kept` requests not yet written to the old one are sent
   on the new. `Finish` is the drain loop taking an exit, or a notice that it was superseded.
   */
  datatype Act =
    | Push(p: R.Push)
    | Emit | Enqueue | Straggle(through: bool) | Evict | Lapse(i: nat)
    | Receive | Hear | Ask | Serve | Land | Settle(applied: bool) | Reconnect(kept: nat) | Finish
    | Commit(n: nat) | FailBatch(n: nat) | Crash | Adopt

  function Begin(f: Frame): nat {
    SatSub(f.headCursor, |f.data|)
  }

  function Answer(ring: R.Window, mode: AttachMode): AttachReply {
    DecideAttach(mode, ring.Head(), ring.Tail())
  }

  function Readable(ring: R.Window, cursor: nat): seq<byte> {
    match R.ReadAt(ring, cursor, STREAM_CHUNK)
    case Data(_, data) => data
    case _ => []
  }

  predicate Can(w: World, a: Act) {
    var d := w.daemon;
    match a
    case Push(p) => true
    case Emit => d.Up? && d.live && d.offering == None && Readable(w.ring, d.sent) != []
    case Enqueue => d.Up? && d.offering.Some?
    case Straggle(_) => d.Up? && d.stragglers != []
    case Evict => d.Up? && d.live && d.offering == None && d.sent < w.ring.Tail()
    case Lapse(i) => d.Up? && i < |d.leaving| && d.leaving[i] < w.ring.Tail()
    case Receive => d.Up? && d.wire != []
    case Hear => d.Up? && d.evictions > 0
    case Ask => d.Up? && d.notices > 0
    case Serve => d.Up? && d.asks != [] && d.starting == None
    case Land => d.Up? && d.starting.Some?
    case Settle(_) => d.Up? && d.settling != []
    case Reconnect(kept) => d.Up? && kept <= |d.asks|
    case Finish => d.Up?
    case Commit(n) => !d.Down? && 0 < n <= Min(|d.queue|, MAX_BATCH)
    case FailBatch(n) => !d.Down? && 0 < n <= Min(|d.queue|, MAX_BATCH)
    case Crash => !d.Down?
    case Adopt => d.Down?
  }

  function AsSeq<T>(x: Option<T>): seq<T> {
    if x.Some? then [x.value] else []
  }

  function ReadOn(ring: R.Window, d: Daemon): Daemon
    requires d.Up?
  {
    var data := Readable(ring, d.sent);
    d.(sent := d.sent + |data|, offering := Some(Frame(data, d.sent + |data|)))
  }

  /** The route takes the frame's cursor, and the drain loop its output unless that is already cold history. */
  function Drained(d: Daemon): Daemon
    requires d.Up? && d.wire != []
  {
    var f := d.wire[0];
    var arrived := d.(wire := d.wire[1..], got := f.headCursor);
    if f.headCursor > d.persistFrom then
      arrived.(lastSeq := d.lastSeq + 1, queue := d.queue + [Event(d.lastSeq + 1, f.data, f.headCursor)])
    else arrived
  }

  /**
   A request is decided on the same connection. A gap makes the daemon ask for the earliest
   byte instead, and set the route's cursor there.
   */
  function Served(ring: R.Window, d: Daemon): Daemon
    requires d.Up? && d.asks != []
  {
    var rest := d.asks[1..];
    match Answer(ring, d.asks[0])
    case InvalidArgument => d.(asks := rest)
    case BufferGap(earliest) => d.(asks := rest + [FromEarliest], settling := d.settling + [earliest])
    case Start(at) => d.(asks := rest, starting := Some(at))
  }

  /**
   The new stream takes the place of the one before, which is cancelled: what that one was
   offering may still get through, and if it was offering nothing it may read once more.
   Frames on the way stay where they are.
   */
  function Landed(d: Daemon): Daemon
    requires d.Up? && d.starting.Some?
  {
    d.(live := true, sent := d.starting.value, starting := None, offering := None,
       stragglers := Pending(d), leaving := if d.live && d.offering == None then d.leaving + [d.sent] else d.leaving)
  }

  /** Frames being offered. */
  function Pending(d: Daemon): seq<Frame>
    requires d.Up?
  {
    d.stragglers + AsSeq(d.offering)
  }

  /** The oldest frame of a replaced stream gets through, and the stream reads on, or is given up. */
  function Straggled(d: Daemon, through: bool): Daemon
    requires d.Up? && d.stragglers != []
  {
    var f, rest := d.stragglers[0], d.stragglers[1..];
    if through then d.(stragglers := rest, wire := d.wire + [f], leaving := d.leaving + [f.headCursor])
    else d.(stragglers := rest)
  }

  /**
   The re-attach on a new connection: what was on the way on the old one is gone. After a gap
   the earliest byte is asked for, and the route's cursor stays.
   */
  function Reconnected(ring: R.Window, d: Daemon, kept: nat): Daemon
    requires d.Up? && kept <= |d.asks|
  {
    var asks := d.asks[|d.asks| - kept..];
    var bare := d.(live := false, offering := None, stragglers := [], leaving := [], wire := [], evictions := 0,
                   asks := asks, starting := None);
    match Answer(ring, FromCursor(d.got))
    case InvalidArgument => bare
    case BufferGap(_) => bare.(asks := [FromEarliest] + asks)
    case Start(at) => bare.(live := true, sent := at)
  }

  ghost function Adopted(w: World): Daemon {
    var at := w.log.cursor;
    var up := Up(false, at, None, [], [], [], 0, 0, [], None, [], at, at, MaxSeq(w.log.rows), []);
    match Answer(w.ring, FromCursor(w.log.cursor))
    case InvalidArgument => Down
    case BufferGap(earliest) => up.(asks := [FromEarliest], settling := [earliest])
    case Start(at) => up.(live := true, sent := at)
  }

  ghost function Step(w: World, a: Act): World
    requires Can(w, a)
  {
    var d := w.daemon;
    match a
    case Push(p) => w.(ring := R.Apply(w.ring, p))
    case Emit => w.(daemon := ReadOn(w.ring, d))
    case Enqueue => w.(daemon := d.(wire := d.wire + [d.offering.value], offering := None))
    case Straggle(through) => w.(daemon := Straggled(d, through))
    case Evict => w.(daemon := d.(live := false, evictions := d.evictions + 1))
    case Lapse(i) => w.(daemon := d.(evictions := d.evictions + 1, leaving := d.leaving[..i] + d.leaving[i + 1..]))
    case Receive => w.(daemon := Drained(d))
    case Hear => w.(daemon := d.(evictions := d.evictions - 1, notices := d.notices + 1))
    case Ask => w.(daemon := d.(notices := d.notices - 1, asks := d.asks + [FromCursor(d.got)]))
    case Serve => w.(daemon := Served(w.ring, d))
    case Land => w.(daemon := Landed(d))
    case Settle(applied) =>
      w.(daemon := d.(settling := d.settling[1..], got := if applied then d.settling[0] else d.got))
    case Reconnect(kept) => w.(daemon := Reconnected(w.ring, d, kept))
    case Finish => w.(daemon := Ended(d.lastSeq, d.queue))
    case Commit(n) =>
      w.(log := PersistAll(w.log, d.queue[..n]), daemon := d.(queue := d.queue[n..]),
         lost := w.lost + Skipped(w.log.cursor, d.queue[..n]))
    case FailBatch(n) => w.(daemon := d.(queue := d.queue[n..]))
    case Crash => w.(daemon := Down)
    case Adopt => w.(daemon := Adopted(w))
  }

  function Init(cap: nat): World {
    World(R.New(cap), Log(map[], 0), Down, {})
  }

  ghost function After(w: World, acts: seq<Act>): Option<World> {
    if acts == [] then Some(w)
    else
      match After(w, acts[..|acts| - 1])
      case None => None
      case Some(m) => if Can(m, acts[|acts| - 1]) then Some(Step(m, acts[|acts| - 1])) else None
  }

  lemma AfterOne(w: World, a: Act)
    requires Can(w, a)
    ensures After(w, [a]) == Some(Step(w, a))
  {
    assert [a][..0] == [];
  }

  lemma {:induction false} AfterConcat(w: World, first: seq<Act>, rest: seq<Act>)
    requires After(w, first).Some?
    ensures After(w, first + rest) == After(After(w, first).value, rest)
  {
    if rest == [] {
      assert first + rest == first;
    } else {
      AfterConcat(w, first, rest[..|rest| - 1]);
      assert (first + rest)[..|first + rest| - 1] == first + rest[..|rest| - 1];
    }
  }

  // ---- what holds on every run ----

  /** `data` is the piece of the output that ends at `end`. */
  ghost predicate PieceOk(h: seq<byte>, data: seq<byte>, end: nat) {
    0 < |data| <= end <= |h| && data == h[end - |data|..end]
  }

  ghost predicate IsPiece(h: seq<byte>, data: seq<byte>) {
    exists end :: PieceOk(h, data, end)
  }

  ghost predicate ArePieces(h: seq<byte>, fs: seq<Frame>) {
    forall i :: 0 <= i < |fs| ==> PieceOk(h, fs[i].data, fs[i].headCursor)
  }

  ghost predicate EventsArePieces(h: seq<byte>, es: seq<Event>) {
    forall i :: 0 <= i < |es| ==> PieceOk(h, es[i].bytes, es[i].headCursor)
  }

  ghost predicate LogIsPieces(h: seq<byte>, l: Log) {
    l.cursor <= |h| && forall k :: k in l.rows ==> IsPiece(h, l.rows[k])
  }

  predicate Within(mode: AttachMode, head: nat) {
    mode.FromCursor? ==> mode.from <= head
  }

  ghost predicate SoundDaemon(ring: R.Window, d: Daemon) {
    && (!d.Down? ==> EventsArePieces(ring.history, d.queue))
    && (d.Up? ==>
          && d.sent <= ring.Head() && d.got <= ring.Head()
          && (forall i :: 0 <= i < |d.asks| ==> Within(d.asks[i], ring.Head()))
          && (d.starting.Some? ==> d.starting.value <= ring.Head())
          && (forall i :: 0 <= i < |d.settling| ==> d.settling[i] <= ring.Head())
          && ArePieces(ring.history, Pending(d)) && ArePieces(ring.history, d.wire)
          && (d.live || d.offering == None)
          && (Pending(d) != [] ==> ring.cap > 0))
  }

  ghost predicate Sound(w: World) {
    w.ring.Valid() && LogIsPieces(w.ring.history, w.log) && SoundDaemon(w.ring, w.daemon)
  }

  lemma PieceLater(h: seq<byte>, more: seq<byte>, data: seq<byte>, end: nat)
    requires PieceOk(h, data, end)
    ensures PieceOk(h + more, data, end)
  {
    assert (h + more)[end - |data|..end] == h[end - |data|..end];
  }

  lemma PushKeepsSound(w: World, p: R.Push)
    requires Sound(w)
    ensures Sound(Step(w, Push(p)))
  {
    R.ApplyKeepsValid(w.ring, p);
    var h, h' := w.ring.history, R.Apply(w.ring, p).history;
    var more := h'[|h|..];
    assert h' == h + more;
    forall data, end | PieceOk(h, data, end)
      ensures PieceOk(h', data, end)
    {
      PieceLater(h, more, data, end);
    }
    forall k | k in w.log.rows
      ensures IsPiece(h', w.log.rows[k])
    {
      var end :| PieceOk(h, w.log.rows[k], end);
      assert PieceOk(h', w.log.rows[k], end);
    }
  }

  lemma SliceIsPiece(h: seq<byte>, from: nat, to: nat)
    requires from < to <= |h|
    ensures |h[from..to]| == to - from && PieceOk(h, h[from..to], to)
  {
  }

  lemma ReadableIsPiece(ring: R.Window, from: nat)
    requires ring.Valid() && Readable(ring, from) != []
    ensures var data := Readable(ring, from); PieceOk(ring.history, data, from + |data|) && ring.cap > 0
  {
    var to := Min(ring.Head(), from + STREAM_CHUNK);
    assert Readable(ring, from) == ring.history[from..to];
    SliceIsPiece(ring.history, from, to);
  }

  lemma ReadIsPiece(w: World)
    requires Sound(w) && Can(w, Emit)
    ensures var f := ReadOn(w.ring, w.daemon).offering.value;
            PieceOk(w.ring.history, f.data, f.headCursor) && Begin(f) == w.daemon.sent && w.ring.cap > 0
  {
    ReadableIsPiece(w.ring, w.daemon.sent);
  }

  lemma EmitKeepsSound(w: World)
    requires Sound(w) && Can(w, Emit)
    ensures Sound(Step(w, Emit))
  {
    ReadIsPiece(w);
    var d := w.daemon;
    assert Pending(d) == d.stragglers;
    assert Pending(ReadOn(w.ring, d)) == d.stragglers + [ReadOn(w.ring, d).offering.value];
  }

  lemma {:induction false} PersistedArePieces(h: seq<byte>, l: Log, es: seq<Event>)
    requires LogIsPieces(h, l) && EventsArePieces(h, es)
    ensures LogIsPieces(h, PersistAll(l, es))
    decreases |es|
  {
    if es != [] {
      assert PieceOk(h, es[0].bytes, es[0].headCursor);
      assert forall i :: 0 <= i < |es| - 1 ==> es[1..][i] == es[i + 1];
      PersistedArePieces(h, Persist(l, es[0]), es[1..]);
    }
  }

  lemma AnswerIs(ring: R.Window, mode: AttachMode)
    requires ring.Valid() && Within(mode, ring.Head())
    ensures match Answer(ring, mode)
            case InvalidArgument => false
            case BufferGap(earliest) => mode.FromCursor? && mode.from < earliest == ring.Tail()
            case Start(at) => ring.Tail() <= at <= ring.Head() && (mode.FromCursor? ==> at == mode.from)
  {
  }

  lemma NoticesKeepSound(w: World, a: Act)
    requires Sound(w) && Can(w, a)
    requires a.Evict? || a.Lapse? || a.Hear? || a.Ask? || a.Settle? || a.Finish?
    ensures Sound(Step(w, a))
  {
  }

  lemma DrainedIsSound(ring: R.Window, d: Daemon)
    requires d.Up? && d.wire != [] && SoundDaemon(ring, d)
    ensures SoundDaemon(ring, Drained(d))
  {
    assert Pending(Drained(d)) == Pending(d);
  }

  lemma LandedIsSound(ring: R.Window, d: Daemon)
    requires d.Up? && d.starting.Some? && SoundDaemon(ring, d)
    ensures SoundDaemon(ring, Landed(d))
  {
    assert Pending(Landed(d)) == Pending(d);
  }

  lemma HandingKeepsSound(w: World, a: Act)
    requires Sound(w) && Can(w, a) && (a.Enqueue? || a.Straggle?)
    ensures Sound(Step(w, a))
  {
    var d := w.daemon;
    if a.Enqueue? {
      assert Pending(d)[|d.stragglers|] == d.offering.value;
      assert forall i :: 0 <= i < |d.stragglers| ==> Pending(d)[i] == d.stragglers[i];
    } else {
      assert Pending(d)[0] == d.stragglers[0] && Pending(d)[1..] == Pending(Straggled(d, a.through));
    }
  }

  lemma ServedIsSound(ring: R.Window, d: Daemon)
    requires ring.Valid() && d.Up? && d.asks != [] && SoundDaemon(ring, d)
    ensures SoundDaemon(ring, Served(ring, d))
  {
    AnswerIs(ring, d.asks[0]);
    assert Pending(Served(ring, d)) == Pending(d);
  }

  /**
   A reconnect leaves nothing on the way, starts a stream at the route's cursor or, after a gap,
   asks for the earliest byte, and sends on the requests that were not written.
   */
  lemma ReconnectedIs(ring: R.Window, d: Daemon, kept: nat)
    requires d.Up? && d.got <= ring.Head() && kept <= |d.asks|
    ensures var d', rest := Reconnected(ring, d, kept), d.asks[|d.asks| - kept..];
            && d'.Up? && d'.queue == d.queue && d'.lastSeq == d.lastSeq && d'.persistFrom == d.persistFrom
            && d'.got == d.got && d'.settling == d.settling && d'.notices == d.notices
            && d'.evictions == 0 && d'.wire == [] && d'.starting == None && d'.leaving == [] && d'.offering == None
            && d'.stragglers == [] && Pending(d') == []
            && (d'.live <==> ring.Tail() <= d.got) && (d'.live ==> d'.sent == d.got && d'.asks == rest)
            && (!d'.live ==> d'.asks == [FromEarliest] + rest && d'.sent == d.sent)
  {
    assert Answer(ring, FromCursor(d.got)) == if d.got < ring.Tail() then BufferGap(ring.Tail()) else Start(d.got);
  }

  lemma ReconnectedIsSound(ring: R.Window, d: Daemon, kept: nat)
    requires ring.Valid() && d.Up? && kept <= |d.asks| && SoundDaemon(ring, d)
    ensures SoundDaemon(ring, Reconnected(ring, d, kept))
  {
    ReconnectedIs(ring, d, kept);
  }

  /**
   An adoption starts from the tables: the stream at the persisted cursor, or at the earliest
   byte after a gap, the cursor that output must pass to be stored, and the next number.
   */
  lemma AdoptedIs(w: World)
    requires w.ring.Valid() && w.log.cursor <= w.ring.Head() && w.daemon.Down?
    ensures var d := Step(w, Adopt).daemon;
            && d.Up? && d.got == w.log.cursor && d.persistFrom == w.log.cursor && IsMaxSeq(w.log.rows, d.lastSeq)
            && d.queue == [] && d.wire == [] && Pending(d) == [] && d.leaving == [] && d.starting == None
            && d.evictions == 0 && d.notices == 0
            && (d.live <==> w.ring.Tail() <= w.log.cursor) && d.sent == w.log.cursor
            && d.asks == (if d.live then [] else [FromEarliest])
            && d.settling == (if d.live then [] else [w.ring.Tail()])
  {
  }

  /** Output that was cold history when the daemon started is not stored again; the route's cursor follows it. */
  lemma ColdOutputIsNotQueued(d: Daemon)
    requires d.Up? && d.wire != []
    ensures var f, d' := d.wire[0], Drained(d);
            && d'.got == f.headCursor && d'.wire == d.wire[1..]
            && (f.headCursor <= d.persistFrom ==> d'.queue == d.queue && d'.lastSeq == d.lastSeq)
            && (d.persistFrom < f.headCursor ==>
                  && d'.lastSeq == d.lastSeq + 1
                  && d'.queue == d.queue + [Event(d'.lastSeq, f.data, f.headCursor)])
  {
  }

  /** A replaced stream that finds itself lapped sends a notice, and it is heard like any other. */
  lemma LapsesAreHeard(w: World, i: nat)
    requires Can(w, Lapse(i))
    ensures After(w, [Lapse(i)] + [Hear]).Some?
    ensures var d' := After(w, [Lapse(i)] + [Hear]).value.daemon;
            d'.Up? && d'.notices == w.daemon.notices + 1 && d'.evictions == w.daemon.evictions
            && |d'.leaving| + 1 == |w.daemon.leaving|
  {
    AfterOne(w, Lapse(i));
    AfterOne(Step(w, Lapse(i)), Hear);
    AfterConcat(w, [Lapse(i)], [Hear]);
  }

  lemma AdoptKeepsSound(w: World)
    requires Sound(w) && Can(w, Adopt)
    ensures Sound(Step(w, Adopt))
  {
    AnswerIs(w.ring, FromCursor(w.log.cursor));
  }

  lemma StepKeepsSound(w: World, a: Act)
    requires Sound(w) && Can(w, a)
    ensures Sound(Step(w, a))
  {
    match a {
      case Push(p) => PushKeepsSound(w, p);
      case Emit => EmitKeepsSound(w);
      case Enqueue => HandingKeepsSound(w, a);
      case Straggle(_) => HandingKeepsSound(w, a);
      case Receive => DrainedIsSound(w.ring, w.daemon);
      case Serve => ServedIsSound(w.ring, w.daemon);
      case Land => LandedIsSound(w.ring, w.daemon);
      case Reconnect(kept) => ReconnectedIsSound(w.ring, w.daemon, kept);
      case Adopt => AdoptKeepsSound(w);
      case Commit(n) => PersistedArePieces(w.ring.history, w.log, w.daemon.queue[..n]);
      case FailBatch(n) =>
      case Crash =>
      case _ => NoticesKeepSound(w, a);
    }
  }

  lemma {:induction false} EveryRunIsSound(cap: nat, acts: seq<Act>)
    requires After(Init(cap), acts).Some?
    ensures Sound(After(Init(cap), acts).value)
  {
    if acts != [] {
      EveryRunIsSound(cap, acts[..|acts| - 1]);
      StepKeepsSound(After(Init(cap), acts[..|acts| - 1]).value, acts[|acts| - 1]);
    }
  }

  /**
   On every run whatever: each stored event is a piece of the session's output, the backend
   cursor is within it, and no adoption, reconnect or resync is refused as invalid.
   */
  lemma StoredIsAlwaysOutput(cap: nat, acts: seq<Act>)
    requires After(Init(cap), acts).Some?
    ensures var w := After(Init(cap), acts).value;
            && LogIsPieces(w.ring.history, w.log)
            && Answer(w.ring, FromCursor(w.log.cursor)) != InvalidArgument
            && (w.daemon.Up? ==>
                  && Answer(w.ring, FromCursor(w.daemon.got)) != InvalidArgument
                  && forall i :: 0 <= i < |w.daemon.asks| ==> Answer(w.ring, w.daemon.asks[i]) != InvalidArgument)
  {
    EveryRunIsSound(cap, acts);
  }
}
