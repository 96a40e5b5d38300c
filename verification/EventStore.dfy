/**
 The daemon's terminal-event writer. Events are inserted in batches, first write
 wins, and each batch advances its sessions' backend cursors in the same
 transaction. Tables are maps; an UPDATE touches only rows that exist.
 */
module EventStore {
  import opened Base

  const MAX_BATCH: nat := 512

  datatype EventMsg = EventMsg(
    session: string, seqNo: nat, ts: int, stream: byte, bytes: seq<byte>, headCursor: nat)

  datatype Row = Row(ts: int, stream: byte, bytes: seq<byte>)

  /** `terminal_events` by its primary key, and `sessions.backend_cursor` by session. */
  datatype Tables = Tables(events: map<(string, nat), Row>, cursors: map<string, nat>)

  function Key(m: EventMsg): (string, nat) {
    (m.session, m.seqNo)
  }

  function RowOf(m: EventMsg): Row {
    Row(m.ts, m.stream, m.bytes)
  }

  /** INSERT OR IGNORE. */
  function Insert(events: map<(string, nat), Row>, m: EventMsg): map<(string, nat), Row> {
    if Key(m) in events then events else events[Key(m) := RowOf(m)]
  }

  /** UPDATE sessions SET backend_cursor = MAX(backend_cursor, c) WHERE id = s. */
  function Raise(cursors: map<string, nat>, s: string, c: nat): map<string, nat> {
    if s in cursors then cursors[s := Max(cursors[s], c)] else cursors
  }

  /** One message persisted on its own. */
  function Apply(t: Tables, m: EventMsg): Tables {
    Tables(Insert(t.events, m), if m.headCursor > 0 then Raise(t.cursors, m.session, m.headCursor) else t.cursors)
  }

  function ApplyAll(t: Tables, msgs: seq<EventMsg>): Tables {
    if msgs == [] then t else Apply(ApplyAll(t, msgs[..|msgs| - 1]), msgs[|msgs| - 1])
  }

  // ---- what persisting a queue means ----

  /** First write wins per key, and nothing is there that was not written. */
  lemma {:induction false} FirstWriteWins(t: Tables, msgs: seq<EventMsg>, k: (string, nat))
    ensures var r := ApplyAll(t, msgs).events;
            && (k in t.events ==> k in r && r[k] == t.events[k])
            && (k !in t.events && k in r ==>
                  exists i :: 0 <= i < |msgs| && Key(msgs[i]) == k && r[k] == RowOf(msgs[i])
                              && forall j :: 0 <= j < i ==> Key(msgs[j]) != k)
            && (k !in r ==> forall i :: 0 <= i < |msgs| ==> Key(msgs[i]) != k)
  {
    if msgs != [] {
      var init := msgs[..|msgs| - 1];
      FirstWriteWins(t, init, k);
      var q, r := ApplyAll(t, init).events, ApplyAll(t, msgs).events;
      if k !in t.events && k in r {
        if k in q {
          var i :| 0 <= i < |init| && Key(init[i]) == k && q[k] == RowOf(init[i])
                   && forall j :: 0 <= j < i ==> Key(init[j]) != k;
          assert msgs[i] == init[i] && forall j :: 0 <= j < i ==> msgs[j] == init[j];
        } else {
          assert forall j :: 0 <= j < |init| ==> msgs[j] == init[j];
        }
      }
    }
  }

  /** A session's cursor is the largest of what it was and the cursors persisted for it: it never goes back. */
  lemma {:induction false} CursorIsRunningMax(t: Tables, msgs: seq<EventMsg>, s: string)
    ensures var r := ApplyAll(t, msgs).cursors;
            && r.Keys == t.cursors.Keys
            && (s in r ==>
                  && t.cursors[s] <= r[s]
                  && (forall m :: m in msgs && m.session == s ==> m.headCursor <= r[s])
                  && (r[s] == t.cursors[s] || exists m :: m in msgs && m.session == s && m.headCursor == r[s]))
  {
    if msgs != [] {
      var init, last := msgs[..|msgs| - 1], msgs[|msgs| - 1];
      CursorIsRunningMax(t, init, s);
      assert forall m :: m in msgs <==> m in init || m == last;
    }
  }

  /** Where the queue is split into batches does not show in the tables. */
  lemma {:induction false} SplitIsInvisible(t: Tables, a: seq<EventMsg>, b: seq<EventMsg>)
    ensures ApplyAll(t, a + b) == ApplyAll(ApplyAll(t, a), b)
  {
    if b == [] {
      assert a + b == a;
    } else {
      SplitIsInvisible(t, a, b[..|b| - 1]);
      assert (a + b)[..|a + b| - 1] == a + b[..|b| - 1];
    }
  }

  /** Batch `i` is committed or, having failed, skipped. */
  function ApplyBatches(t: Tables, batches: seq<seq<EventMsg>>, commits: nat -> bool): Tables {
    if batches == [] then t
    else
      var n := |batches| - 1;
      var before := ApplyBatches(t, batches[..n], commits);
      if commits(n) then ApplyAll(before, batches[n]) else before
  }

  lemma {:induction false} BatchingIsInvisible(t: Tables, batches: seq<seq<EventMsg>>, commits: nat -> bool)
    requires forall i :: 0 <= i < |batches| ==> commits(i)
    ensures ApplyBatches(t, batches, commits) == ApplyAll(t, Flatten(batches))
  {
    if batches != [] {
      var n := |batches| - 1;
      BatchingIsInvisible(t, batches[..n], commits);
      assert batches == batches[..n] + [batches[n]];
      FlattenSnoc(batches[..n], batches[n]);
      SplitIsInvisible(t, Flatten(batches[..n]), batches[n]);
    }
  }

  /** The messages of the batches that are committed, in order. */
  function Committed(batches: seq<seq<EventMsg>>, commits: nat -> bool): seq<EventMsg> {
    if batches == [] then []
    else
      var n := |batches| - 1;
      Committed(batches[..n], commits) + if commits(n) then batches[n] else []
  }

  /** A batch that fails costs its own messages and no others, whichever they are. */
  lemma {:induction false} FailedBatchesAreSkipped(t: Tables, batches: seq<seq<EventMsg>>, commits: nat -> bool)
    ensures ApplyBatches(t, batches, commits) == ApplyAll(t, Committed(batches, commits))
  {
    if batches != [] {
      var n := |batches| - 1;
      FailedBatchesAreSkipped(t, batches[..n], commits);
      SplitIsInvisible(t, Committed(batches[..n], commits), if commits(n) then batches[n] else []);
    }
  }

  // ---- the batch as it is written: all inserts, then one UPDATE per session ----

  function InsertAll(events: map<(string, nat), Row>, msgs: seq<EventMsg>): map<(string, nat), Row> {
    if msgs == [] then events else Insert(InsertAll(events, msgs[..|msgs| - 1]), msgs[|msgs| - 1])
  }

  /** The largest ring cursor of each session in a batch; 0, the native backend's, does not count. */
  function MaxCursors(msgs: seq<EventMsg>): map<string, nat> {
    if msgs == [] then map[]
    else
      var m, init := msgs[|msgs| - 1], MaxCursors(msgs[..|msgs| - 1]);
      if m.headCursor == 0 then init
      else init[m.session := if m.session in init then Max(init[m.session], m.headCursor) else m.headCursor]
  }

  ghost function RaiseAll(cursors: map<string, nat>, raises: map<string, nat>): map<string, nat> {
    map s | s in cursors :: if s in raises then Max(cursors[s], raises[s]) else cursors[s]
  }

  lemma {:induction false} TwoPhasesAreOneFold(t: Tables, msgs: seq<EventMsg>)
    ensures ApplyAll(t, msgs) == Tables(InsertAll(t.events, msgs), RaiseAll(t.cursors, MaxCursors(msgs)))
  {
    if msgs == [] {
      assert RaiseAll(t.cursors, map[]) == t.cursors;
    } else {
      var init, m := msgs[..|msgs| - 1], msgs[|msgs| - 1];
      TwoPhasesAreOneFold(t, init);
      RaiseOneMore(t.cursors, MaxCursors(init), m);
    }
  }

  lemma RaiseOneMore(cursors: map<string, nat>, raises: map<string, nat>, m: EventMsg)
    ensures var more := if m.session in raises then Max(raises[m.session], m.headCursor) else m.headCursor;
            RaiseAll(cursors, raises[m.session := more]) == Raise(RaiseAll(cursors, raises), m.session, m.headCursor)
  {
  }

  lemma OneMoreBatch(t: Tables, batches: seq<seq<EventMsg>>, batch: seq<EventMsg>, commits: nat -> bool)
    ensures ApplyBatches(t, batches + [batch], commits)
            == var before := ApplyBatches(t, batches, commits);
               if commits(|batches|) then ApplyAll(before, batch) else before
  {
    assert (batches + [batch])[..|batches|] == batches;
  }

  /** The batch's inserts, in order. */
  method InsertBatch(events: map<(string, nat), Row>, batch: seq<EventMsg>) returns (r: map<(string, nat), Row>)
    ensures r == InsertAll(events, batch)
  {
    r := events;
    for i := 0 to |batch|
      invariant r == InsertAll(events, batch[..i])
    {
      assert batch[..i + 1][..i] == batch[..i];
      r := Insert(r, batch[i]);
    }
    assert batch[..|batch|] == batch;
  }

  /** The batch's largest cursor of each session. */
  method CollectCursors(batch: seq<EventMsg>) returns (r: map<string, nat>)
    ensures r == MaxCursors(batch)
  {
    r := map[];
    for i := 0 to |batch|
      invariant r == MaxCursors(batch[..i])
    {
      assert batch[..i + 1][..i] == batch[..i];
      var m := batch[i];
      if m.headCursor > 0 {
        var entry := if m.session in r then r[m.session] else 0;
        r := r[m.session := Max(entry, m.headCursor)];
      }
    }
    assert batch[..|batch|] == batch;
  }

  /** One UPDATE per session of the batch, in no particular order. */
  method RaiseCursors(cursors: map<string, nat>, raises: map<string, nat>) returns (r: map<string, nat>)
    ensures r == RaiseAll(cursors, raises)
  {
    r := cursors;
    var left := raises;
    while left != map[]
      invariant left.Keys <= raises.Keys && forall s :: s in left ==> left[s] == raises[s]
      invariant r.Keys == cursors.Keys
      invariant forall s | s in r ::
                  r[s] == if s in raises && s !in left then Max(cursors[s], raises[s]) else cursors[s]
      decreases |left|
    {
      var s :| s in left;
      r := Raise(r, s, left[s]);
      left := left - {s};
    }
  }

  class EventWriter {
    var events: map<(string, nat), Row>
    var cursors: map<string, nat>

    function Now(): Tables
      reads this
    {
      Tables(events, cursors)
    }

    constructor (t: Tables)
      ensures Now() == t
    {
      events, cursors := t.events, t.cursors;
    }

    /** One transaction. When it does not commit, nothing of the batch is kept. */
    method WriteBatch(batch: seq<EventMsg>, commit: bool)
      modifies this
      ensures Now() == if commit then ApplyAll(old(Now()), batch) else old(Now())
    {
      var txEvents := InsertBatch(events, batch);
      var maxCursor := CollectCursors(batch);
      var txCursors := RaiseCursors(cursors, maxCursor);
      if commit {
        TwoPhasesAreOneFold(Now(), batch);
        events, cursors := txEvents, txCursors;
      }
    }

    /**
     Take a message, then whatever else is queued by then up to the batch limit,
     and write it; a failed batch is logged and skipped. `ready(i)` is how many
     more messages are queued when batch `i` starts.
     */
    method WriterLoop(queue: seq<EventMsg>, ready: nat -> nat, commits: nat -> bool)
      returns (batches: seq<seq<EventMsg>>)
      modifies this
      ensures Flatten(batches) == queue
      ensures forall b :: b in batches ==> 0 < |b| <= MAX_BATCH
      ensures Now() == ApplyBatches(old(Now()), batches, commits)
    {
      batches := [];
      var rest := queue;
      while rest != []
        invariant Flatten(batches) + rest == queue
        invariant forall b :: b in batches ==> 0 < |b| <= MAX_BATCH
        invariant Now() == ApplyBatches(old(Now()), batches, commits)
        decreases |rest|
      {
        var n := TakeBatch(|rest|, ready(|batches|));
        var batch := rest[..n];
        ghost var before := batches;
        WriteBatch(batch, commits(|batches|));
        batches := batches + [batch];
        OneMoreBatch(old(Now()), before, batch, commits);
        FlattenSnoc(before, batch);
        Regroup(Flatten(before), batch, rest[n..]);
        rest := rest[n..];
      }
    }

    /** The receive loop: one message, then more until none is ready or the batch is full. */
    method TakeBatch(queued: nat, ready: nat) returns (n: nat)
      requires queued > 0
      ensures 0 < n <= queued && n <= MAX_BATCH
      ensures n == Min(MAX_BATCH, 1 + Min(ready, queued - 1))
    {
      n := 1;
      while n - 1 < ready && n < queued
        invariant 1 <= n <= Min(MAX_BATCH, 1 + Min(ready, queued - 1))
        invariant n < MAX_BATCH
      {
        n := n + 1;
        if n >= MAX_BATCH {
          break;
        }
      }
    }
  }

  // ---- what a restarted daemon reads back ----

  /** One session's persisted output by sequence number, and its backend cursor. */
  datatype Log = Log(rows: map<nat, seq<byte>>, cursor: nat)

  ghost function RowsOf(events: map<(string, nat), Row>, s: string): map<nat, seq<byte>> {
    map k | k in events && k.0 == s :: k.1 := events[k].bytes
  }

  ghost function LogOf(t: Tables, s: string): Log {
    Log(RowsOf(t.events, s), if s in t.cursors then t.cursors[s] else 0)
  }

  function LogMsg(l: Log, seqNo: nat, bytes: seq<byte>, headCursor: nat): Log {
    Log(if seqNo in l.rows then l.rows else l.rows[seqNo := bytes], Max(l.cursor, headCursor))
  }

  /** SELECT COALESCE(MAX(seq), 0). */
  ghost predicate IsMaxSeq(rows: map<nat, seq<byte>>, n: nat) {
    (forall k :: k in rows ==> k <= n) && (n == 0 || n in rows)
  }

  /** SELECT bytes ... WHERE seq > after ORDER BY seq, up to `n`. */
  function History(rows: map<nat, seq<byte>>, after: nat, n: nat): seq<byte> {
    if n <= after then [] else History(rows, after, n - 1) + (if n in rows then rows[n] else [])
  }

  lemma RowsMeans(events: map<(string, nat), Row>, s: string, n: nat)
    ensures n in RowsOf(events, s) <==> (s, n) in events
    ensures (s, n) in events ==> RowsOf(events, s)[n] == events[(s, n)].bytes
  {
  }

  lemma RowsOfInsert(events: map<(string, nat), Row>, m: EventMsg, s: string)
    ensures var rows := RowsOf(events, s);
            RowsOf(Insert(events, m), s)
            == if m.session == s && m.seqNo !in rows then rows[m.seqNo := m.bytes] else rows
  {
    var rows, more := RowsOf(events, s), RowsOf(Insert(events, m), s);
    RowsMeans(events, s, m.seqNo);
    if m.session == s && m.seqNo !in rows {
      forall n: nat
        ensures n in more <==> n in rows || n == m.seqNo
        ensures n in more ==> more[n] == rows[m.seqNo := m.bytes][n]
      {
        RowsMeans(events, s, n);
        RowsMeans(Insert(events, m), s, n);
      }
      assert more == rows[m.seqNo := m.bytes];
    } else {
      forall n: nat
        ensures n in more <==> n in rows
        ensures n in more ==> more[n] == rows[n]
      {
        RowsMeans(events, s, n);
        RowsMeans(Insert(events, m), s, n);
      }
      assert more == rows;
    }
  }

  /** A message of one session leaves every other session's log as it was. */
  lemma LogOfApply(t: Tables, m: EventMsg, s: string)
    requires s in t.cursors
    ensures s in Apply(t, m).cursors
    ensures LogOf(Apply(t, m), s)
            == if m.session == s then LogMsg(LogOf(t, s), m.seqNo, m.bytes, m.headCursor) else LogOf(t, s)
  {
    RowsOfInsert(t.events, m, s);
  }

  lemma {:induction false} HistoryBeyond(rows: map<nat, seq<byte>>, after: nat, n: nat, more: nat)
    requires n <= more && forall k :: k in rows ==> k <= n
    ensures History(rows, after, more) == History(rows, after, n)
    decreases more
  {
    if n < more {
      HistoryBeyond(rows, after, n, more - 1);
    }
  }

  lemma {:induction false} HistoryFrame(rows: map<nat, seq<byte>>, after: nat, n: nat, k: nat, bytes: seq<byte>)
    requires n < k
    ensures History(rows[k := bytes], after, n) == History(rows, after, n)
  {
    if after < n {
      HistoryFrame(rows, after, n - 1, k, bytes);
    }
  }

  /** A row with a number past every other extends the history at its end. */
  lemma NewRowExtends(rows: map<nat, seq<byte>>, n: nat, k: nat, bytes: seq<byte>)
    requires IsMaxSeq(rows, n) && n < k
    ensures IsMaxSeq(rows[k := bytes], k)
    ensures History(rows[k := bytes], 0, k) == History(rows, 0, n) + bytes
  {
    HistoryFrame(rows, 0, k - 1, k, bytes);
    HistoryBeyond(rows, 0, n, k - 1);
  }

  /** A row for a number that is stored already is ignored, and the cursor moves all the same. */
  lemma ReusedNumberIsIgnored(l: Log, seqNo: nat, bytes: seq<byte>, headCursor: nat)
    requires seqNo in l.rows && l.rows[seqNo] != bytes && headCursor > l.cursor
    ensures var l' := LogMsg(l, seqNo, bytes, headCursor);
            l'.rows == l.rows && l'.cursor > l.cursor
  {
  }
}
