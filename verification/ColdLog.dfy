/**
 One session's output as the daemon's tables hold it: numbered events, each a piece of
 the ring's history, and what storing a batch of them adds to the cold history or loses.
 */
module ColdLog {
  import opened Base
  import opened EventStore

  datatype Event = Event(seqNo: nat, bytes: seq<byte>, headCursor: nat) {
    function Begin(): nat {
      SatSub(headCursor, |bytes|)
    }
  }

  function Persist(l: Log, e: Event): Log {
    LogMsg(l, e.seqNo, e.bytes, e.headCursor)
  }

  function PersistAll(l: Log, es: seq<Event>): Log
    decreases |es|
  {
    if es == [] then l else PersistAll(Persist(l, es[0]), es[1..])
  }

  // ---- one session's part of the tables ----

  /** The events of session `s` among a batch's messages. */
  function EventsFor(s: string, msgs: seq<EventMsg>): seq<Event> {
    if msgs == [] then []
    else
      var m, init := msgs[|msgs| - 1], EventsFor(s, msgs[..|msgs| - 1]);
      if m.session == s then init + [Event(m.seqNo, m.bytes, m.headCursor)] else init
  }

  lemma {:induction false} PersistMore(l: Log, es: seq<Event>, e: Event)
    ensures PersistAll(l, es + [e]) == Persist(PersistAll(l, es), e)
    decreases |es|
  {
    if es != [] {
      PersistMore(Persist(l, es[0]), es[1..], e);
      assert (es + [e])[0] == es[0] && (es + [e])[1..] == es[1..] + [e];
    }
  }

  /** What a batch of any sessions' messages does to one session's log is what its own events do, in order. */
  lemma {:induction false} BatchIsPerSession(t: Tables, msgs: seq<EventMsg>, s: string)
    requires s in t.cursors
    ensures s in ApplyAll(t, msgs).cursors
    ensures LogOf(ApplyAll(t, msgs), s) == PersistAll(LogOf(t, s), EventsFor(s, msgs))
  {
    if msgs != [] {
      var init, m := msgs[..|msgs| - 1], msgs[|msgs| - 1];
      BatchIsPerSession(t, init, s);
      LogOfApply(ApplyAll(t, init), m, s);
      if m.session == s {
        PersistMore(LogOf(t, s), EventsFor(s, init), Event(m.seqNo, m.bytes, m.headCursor));
      }
    }
  }

  // ---- holes ----

  predicate Within(lo: nat, hi: nat, i: nat) {
    lo <= i < hi
  }

  function Range(lo: nat, hi: nat): set<nat> {
    set i: nat | i < hi && Within(lo, hi, i)
  }

  /** The positions the cursor passes over while `es` are stored after `from`. */
  function Skipped(from: nat, es: seq<Event>): set<nat>
    decreases |es|
  {
    if es == [] then {} else Range(from, es[0].Begin()) + Skipped(Max(from, es[0].headCursor), es[1..])
  }

  ghost function MaxSeq(rows: map<nat, seq<byte>>): nat
    ensures IsMaxSeq(rows, MaxSeq(rows))
  {
    MaxExists(rows);
    var n: nat :| IsMaxSeq(rows, n);
    n
  }

  lemma {:induction false} MaxExists(rows: map<nat, seq<byte>>)
    ensures exists n: nat :: IsMaxSeq(rows, n)
    decreases |rows|
  {
    if rows == map[] {
      assert IsMaxSeq(rows, 0);
    } else {
      var k :| k in rows;
      var rest := rows - {k};
      MaxExists(rest);
      var n: nat :| IsMaxSeq(rest, n);
      assert forall j :: j in rows ==> j == k || j in rest;
      assert IsMaxSeq(rows, Max(n, k));
    }
  }

  // ---- what is stored ----

  /** The first `n` bytes of `h` without the lost positions. */
  ghost function Surviving(h: seq<byte>, lost: set<nat>, n: nat): seq<byte>
    requires n <= |h|
  {
    if n == 0 then [] else Surviving(h, lost, n - 1) + (if n - 1 in lost then [] else [h[n - 1]])
  }

  lemma {:induction false} SurvivingFrame(h: seq<byte>, more: seq<byte>, lost: set<nat>, extra: set<nat>, n: nat)
    requires n <= |h| && forall i :: i in extra ==> n <= i
    ensures Surviving(h + more, lost + extra, n) == Surviving(h, lost, n)
  {
    if n > 0 {
      SurvivingFrame(h, more, lost, extra, n - 1);
    }
  }

  lemma {:induction false} SurvivingSkip(h: seq<byte>, lost: set<nat>, from: nat, n: nat)
    requires from <= n <= |h| && Range(from, n) <= lost
    ensures Surviving(h, lost, n) == Surviving(h, lost, from)
  {
    if from < n {
      assert n - 1 in Range(from, n);
      assert Range(from, n - 1) <= Range(from, n);
      SurvivingSkip(h, lost, from, n - 1);
    }
  }

  lemma {:induction false} SurvivingKeep(h: seq<byte>, lost: set<nat>, from: nat, n: nat)
    requires from <= n <= |h| && forall i :: from <= i < n ==> i !in lost
    ensures Surviving(h, lost, n) == Surviving(h, lost, from) + h[from..n]
  {
    if from < n {
      SurvivingKeep(h, lost, from, n - 1);
      assert h[from..n] == h[from..n - 1] + [h[n - 1]];
    }
  }

  /** Storing an event past a hole: the hole is lost, nothing else is. */
  lemma SurvivingPast(h: seq<byte>, lost: set<nat>, from: nat, begin: nat, end: nat)
    requires from <= begin <= end <= |h| && forall i :: i in lost ==> i < from
    ensures Surviving(h, lost + Range(from, begin), end) == Surviving(h, lost, from) + h[begin..end]
  {
    var now := lost + Range(from, begin);
    SurvivingFrame(h, [], lost, Range(from, begin), from);
    assert h + [] == h;
    SurvivingSkip(h, now, from, begin);
    SurvivingKeep(h, now, begin, end);
  }

  lemma {:induction false} SurvivingLength(h: seq<byte>, lost: set<nat>, n: nat)
    requires n <= |h|
    ensures |Surviving(h, lost, n)| <= n
    ensures |Surviving(h, lost, n)| == n <==> forall i :: 0 <= i < n ==> i !in lost
  {
    if n > 0 {
      SurvivingLength(h, lost, n - 1);
    }
  }

  /** The cold history a restarted daemon replays. */
  ghost function Cold(l: Log): seq<byte> {
    History(l.rows, 0, MaxSeq(l.rows))
  }

  // ---- logs and events ----

  ghost predicate LogOk(h: seq<byte>, l: Log, lost: set<nat>) {
    && l.cursor <= |h|
    && (forall i :: i in lost ==> i < l.cursor)
    && Cold(l) == Surviving(h, lost, l.cursor)
  }

  /** Events after cursor `from` and number `after`, in order, each a piece of `h`; between them there may be holes. */
  ghost predicate EventsOk(h: seq<byte>, from: nat, after: nat, es: seq<Event>, to: nat, last: nat)
    decreases |es|
  {
    if es == [] then from <= to <= |h| && after <= last
    else
      var e := es[0];
      && after < e.seqNo
      && 0 < |e.bytes| <= e.headCursor <= |h|
      && from <= e.Begin()
      && e.bytes == h[e.Begin()..e.headCursor]
      && EventsOk(h, e.headCursor, e.seqNo, es[1..], to, last)
  }

  /** Where the events after cursor `from` end. */
  function QueueEnd(from: nat, es: seq<Event>): nat {
    if es == [] then from else es[|es| - 1].headCursor
  }

  lemma {:induction false} EventsReachEnd(h: seq<byte>, from: nat, after: nat, es: seq<Event>, to: nat, last: nat)
    requires EventsOk(h, from, after, es, to, last)
    ensures from <= QueueEnd(from, es) <= to && EventsOk(h, from, after, es, QueueEnd(from, es), last)
    decreases |es|
  {
    if es != [] {
      EventsReachEnd(h, es[0].headCursor, es[0].seqNo, es[1..], to, last);
      assert QueueEnd(es[0].headCursor, es[1..]) == QueueEnd(from, es);
    }
  }

  /** The same without holes. */
  ghost predicate Tight(from: nat, es: seq<Event>, to: nat)
    decreases |es|
  {
    if es == [] then from == to else es[0].Begin() == from && Tight(es[0].headCursor, es[1..], to)
  }

  lemma {:induction false} EventsLater(h: seq<byte>, more: seq<byte>, from: nat, after: nat, es: seq<Event>, to: nat,
                                       last: nat)
    requires EventsOk(h, from, after, es, to, last)
    ensures EventsOk(h + more, from, after, es, to, last)
    decreases |es|
  {
    if es != [] {
      assert (h + more)[es[0].Begin()..es[0].headCursor] == h[es[0].Begin()..es[0].headCursor];
      EventsLater(h, more, es[0].headCursor, es[0].seqNo, es[1..], to, last);
    }
  }

  lemma {:induction false} EventsEnd(h: seq<byte>, from: nat, after: nat, es: seq<Event>, to: nat, last: nat)
    requires EventsOk(h, from, after, es, to, last)
    ensures from <= to <= |h| && after <= last
    decreases |es|
  {
    if es != [] {
      EventsEnd(h, es[0].headCursor, es[0].seqNo, es[1..], to, last);
    }
  }

  lemma {:induction false} EventsAppend(h: seq<byte>, from: nat, after: nat, es: seq<Event>, to: nat, last: nat,
                                        e: Event)
    requires EventsOk(h, from, after, es, to, last)
    requires e.seqNo == last + 1 && 0 < |e.bytes| <= e.headCursor <= |h|
    requires to <= e.Begin() && e.bytes == h[e.Begin()..e.headCursor]
    ensures EventsOk(h, from, after, es + [e], e.headCursor, e.seqNo)
    decreases |es|
  {
    if es != [] {
      assert (es + [e])[0] == es[0] && (es + [e])[1..] == es[1..] + [e];
      EventsAppend(h, es[0].headCursor, es[0].seqNo, es[1..], to, last, e);
    }
  }

  lemma {:induction false} TightAppend(from: nat, es: seq<Event>, to: nat, e: Event)
    requires Tight(from, es, to) && e.Begin() == to
    ensures Tight(from, es + [e], e.headCursor)
    decreases |es|
  {
    if es != [] {
      assert (es + [e])[0] == es[0] && (es + [e])[1..] == es[1..] + [e];
      TightAppend(es[0].headCursor, es[1..], to, e);
    }
  }

  /** Dropping events leaves the rest in order, with a hole in front. */
  lemma {:induction false} EventsDrop(h: seq<byte>, from: nat, after: nat, es: seq<Event>, n: nat, to: nat, last: nat)
    requires EventsOk(h, from, after, es, to, last) && n <= |es|
    ensures EventsOk(h, from, after, es[n..], to, last)
    ensures 0 < n < |es| ==> from < es[n].Begin()
    decreases |es|
  {
    if n > 0 {
      EventsDrop(h, es[0].headCursor, es[0].seqNo, es[1..], n - 1, to, last);
      assert es[1..][n - 1..] == es[n..];
      EventsWeaken(h, es[0].headCursor, es[0].seqNo, from, after, es[n..], to, last);
    }
  }

  lemma EventsWeaken(h: seq<byte>, from: nat, after: nat, from': nat, after': nat, es: seq<Event>, to: nat, last: nat)
    requires EventsOk(h, from, after, es, to, last) && from' <= from && after' <= after
    ensures EventsOk(h, from', after', es, to, last)
  {
  }

  // ---- committing ----

  lemma MaxIs(rows: map<nat, seq<byte>>, n: nat)
    requires IsMaxSeq(rows, n)
    ensures MaxSeq(rows) == n
  {
  }

  lemma PersistOne(h: seq<byte>, l: Log, lost: set<nat>, e: Event)
    requires LogOk(h, l, lost)
    requires MaxSeq(l.rows) < e.seqNo && 0 < |e.bytes| <= e.headCursor <= |h| && l.cursor <= e.Begin()
    requires e.bytes == h[e.Begin()..e.headCursor]
    ensures var l' := Persist(l, e);
            && LogOk(h, l', lost + Range(l.cursor, e.Begin()))
            && l'.cursor == e.headCursor && MaxSeq(l'.rows) == e.seqNo
  {
    NewRowExtends(l.rows, MaxSeq(l.rows), e.seqNo, e.bytes);
    MaxIs(l.rows[e.seqNo := e.bytes], e.seqNo);
    SurvivingPast(h, lost, l.cursor, e.Begin(), e.headCursor);
  }

  /** Committing a batch stores exactly its events and loses exactly the holes before and between them. */
  lemma {:induction false} PersistBatch(h: seq<byte>, l: Log, lost: set<nat>, es: seq<Event>, n: nat, to: nat,
                                        last: nat)
    requires LogOk(h, l, lost) && n <= |es| && EventsOk(h, l.cursor, MaxSeq(l.rows), es, to, last)
    ensures var l' := PersistAll(l, es[..n]);
            && LogOk(h, l', lost + Skipped(l.cursor, es[..n]))
            && l'.cursor == QueueEnd(l.cursor, es[..n]) && l.cursor <= l'.cursor
            && EventsOk(h, l'.cursor, MaxSeq(l'.rows), es[n..], to, last)
    decreases n
  {
    if n == 0 {
      assert es[..0] == [];
      assert es[0..] == es;
      assert lost + {} == lost;
    } else {
      var l1, lost1 := Persist(l, es[0]), lost + Range(l.cursor, es[0].Begin());
      PersistOne(h, l, lost, es[0]);
      PersistBatch(h, l1, lost1, es[1..], n - 1, to, last);
      assert es[..n][0] == es[0] && es[..n][1..] == es[1..][..n - 1] && es[1..][n - 1..] == es[n..];
      assert lost1 + Skipped(es[0].headCursor, es[..n][1..]) == lost + Skipped(l.cursor, es[..n]);
    }
  }

  // ---- batches without holes ----

  /** A batch loses nothing exactly when it continues the log without a hole. */
  lemma {:induction false} SkipsNothingIffTight(h: seq<byte>, from: nat, after: nat, es: seq<Event>, to: nat, last: nat)
    requires EventsOk(h, from, after, es, to, last)
    ensures Skipped(from, es) == {} <==> (es == [] || Tight(from, es, es[|es| - 1].headCursor))
    decreases |es|
  {
    if es != [] {
      SkipsNothingIffTight(h, es[0].headCursor, es[0].seqNo, es[1..], to, last);
      if from < es[0].Begin() {
        assert from in Range(from, es[0].Begin());
      }
      if |es| > 1 {
        assert es[1..][|es| - 2] == es[|es| - 1];
      }
    }
  }

  lemma {:induction false} TightBatch(h: seq<byte>, l: Log, es: seq<Event>, n: nat, to: nat, last: nat)
    requires Tight(l.cursor, es, to) && n <= |es| && EventsOk(h, l.cursor, MaxSeq(l.rows), es, to, last)
    requires LogOk(h, l, {})
    ensures Skipped(l.cursor, es[..n]) == {} && Tight(PersistAll(l, es[..n]).cursor, es[n..], to)
    decreases n
  {
    if n == 0 {
      assert es[..0] == [];
      assert es[0..] == es;
    } else {
      PersistOne(h, l, {}, es[0]);
      assert Range(l.cursor, es[0].Begin()) == {};
      assert {} + Range(l.cursor, es[0].Begin()) == {};
      TightBatch(h, Persist(l, es[0]), es[1..], n - 1, to, last);
      assert es[..n][0] == es[0] && es[..n][1..] == es[1..][..n - 1] && es[1..][n - 1..] == es[n..];
    }
  }

  ghost function Bytes(es: seq<Event>): seq<byte> {
    if es == [] then [] else es[0].bytes + Bytes(es[1..])
  }

  lemma {:induction false} TightBytes(h: seq<byte>, from: nat, after: nat, es: seq<Event>, to: nat, last: nat)
    requires EventsOk(h, from, after, es, to, last) && Tight(from, es, to)
    ensures from <= to <= |h| && Bytes(es) == h[from..to]
    decreases |es|
  {
    if es != [] {
      TightBytes(h, es[0].headCursor, es[0].seqNo, es[1..], to, last);
      assert h[from..to] == h[from..es[0].headCursor] + h[es[0].headCursor..to];
    }
  }

  // ---- numbers ----

  /** Numbered one after another from `m`, none of them empty. */
  ghost predicate NumberedFrom(m: nat, es: seq<Event>) {
    forall i :: 0 <= i < |es| ==> es[i].seqNo == m + 1 + i && es[i].bytes != []
  }

  lemma {:induction false} HistoryLength(rows: map<nat, seq<byte>>, n: nat, k: nat, bytes: seq<byte>)
    requires k !in rows && 0 < k
    ensures |History(rows[k := bytes], 0, n)| == |History(rows, 0, n)| + if k <= n then |bytes| else 0
  {
    if n > 0 {
      HistoryLength(rows, n - 1, k, bytes);
    }
  }

  /** A row adds its bytes to the stored history unless its number is taken. */
  lemma PersistLength(l: Log, e: Event)
    requires 0 < e.seqNo
    ensures |Cold(Persist(l, e))| == |Cold(l)| + if e.seqNo in l.rows then 0 else |e.bytes|
  {
    if e.seqNo !in l.rows {
      var rows, n, top := l.rows, MaxSeq(l.rows), Max(MaxSeq(l.rows), e.seqNo);
      MaxIs(rows[e.seqNo := e.bytes], top);
      HistoryLength(rows, top, e.seqNo, e.bytes);
      HistoryBeyond(rows, 0, n, top);
    }
  }

  /** Whatever the numbers, no more is stored than is given, no row is replaced, and the cursor passes every event. */
  lemma {:induction false} PersistAllLength(l: Log, es: seq<Event>)
    requires forall i :: 0 <= i < |es| ==> 0 < es[i].seqNo
    ensures var l' := PersistAll(l, es);
            && |Cold(l')| <= |Cold(l)| + |Bytes(es)|
            && (forall k :: k in l.rows ==> k in l'.rows && l'.rows[k] == l.rows[k])
            && l.cursor <= l'.cursor && forall i :: 0 <= i < |es| ==> es[i].headCursor <= l'.cursor
    ensures (exists i :: 0 <= i < |es| && es[i].seqNo in l.rows && es[i].bytes != []) ==>
              |Cold(PersistAll(l, es))| < |Cold(l)| + |Bytes(es)|
    decreases |es|
  {
    if es != [] {
      var rest := es[1..];
      PersistLength(l, es[0]);
      assert forall i :: 0 < i < |es| ==> es[i] == rest[i - 1];
      PersistAllLength(Persist(l, es[0]), rest);
    }
  }

  /**
   Numbers that begin at or below the largest stored one lose output as soon as they reach it:
   the event that takes it is not stored, although the cursor moves past it.
   */
  lemma ReusedNumbersLoseOutput(l: Log, m: nat, es: seq<Event>)
    requires NumberedFrom(m, es) && m < MaxSeq(l.rows) <= m + |es|
    ensures var n, l' := MaxSeq(l.rows), PersistAll(l, es);
            && |Cold(l')| < |Cold(l)| + |Bytes(es)|
            && n in l.rows && n in l'.rows && l'.rows[n] == l.rows[n] && es[n - m - 1].headCursor <= l'.cursor
  {
    var n := MaxSeq(l.rows);
    assert es[n - m - 1].seqNo == n;
    PersistAllLength(l, es);
  }

  lemma {:induction false} FreshNumbersKeepOutput(l: Log, m: nat, es: seq<Event>)
    requires NumberedFrom(m, es) && MaxSeq(l.rows) <= m
    ensures Cold(PersistAll(l, es)) == Cold(l) + Bytes(es)
    decreases |es|
  {
    if es != [] {
      var e := es[0];
      NewRowExtends(l.rows, MaxSeq(l.rows), e.seqNo, e.bytes);
      MaxIs(l.rows[e.seqNo := e.bytes], e.seqNo);
      assert forall i :: 0 < i < |es| ==> es[i] == es[1..][i - 1];
      FreshNumbersKeepOutput(Persist(l, e), m + 1, es[1..]);
      Regroup(Cold(l), e.bytes, Bytes(es[1..]));
    }
  }

  function Ones(m: nat, n: nat): seq<Event> {
    seq(n, i requires i >= 0 => Event(m + 1 + i, [1], 1))
  }

  /**
   Events numbered on from `m` extend the stored history by just their bytes, whatever they are,
   if and only if no larger number is stored: `m` must be the largest, not an older one.
   */
  lemma NumberingIsSafeIff(l: Log, m: nat)
    ensures MaxSeq(l.rows) <= m
            <==> forall es | NumberedFrom(m, es) :: Cold(PersistAll(l, es)) == Cold(l) + Bytes(es)
  {
    if MaxSeq(l.rows) <= m {
      forall es | NumberedFrom(m, es)
        ensures Cold(PersistAll(l, es)) == Cold(l) + Bytes(es)
      {
        FreshNumbersKeepOutput(l, m, es);
      }
    } else {
      var es := Ones(m, MaxSeq(l.rows) - m);
      assert NumberedFrom(m, es);
      ReusedNumbersLoseOutput(l, m, es);
    }
  }
}
