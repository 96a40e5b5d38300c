/**
 How much is stored, on any run. The stored history never falls short of the output that
 survives, and committing an event that begins before the one ahead of it ends makes it
 longer, which nothing takes back.
 */
module ColdExcess {
  import opened Base
  import opened EventStore
  import opened ColdLog
  import opened ColdStitch
  import opened ColdOrder
  import R = RingHistory

  /** Event `i` begins before the one ahead of it, or the log, ends. */
  predicate Overlaps(from: nat, es: seq<Event>, i: nat)
    requires i < |es|
  {
    es[i].Begin() < if i == 0 then from else es[i - 1].headCursor
  }

  ghost predicate SomeOverlap(from: nat, es: seq<Event>) {
    exists i :: 0 <= i < |es| && Overlaps(from, es, i)
  }

  /** Numbers above `after` and up to `last`, rising. */
  ghost predicate Numbered(after: nat, es: seq<Event>, last: nat) {
    && after <= last
    && (forall i :: 0 <= i < |es| ==> after < es[i].seqNo <= last)
    && forall i, j :: 0 <= i < j < |es| ==> es[i].seqNo < es[j].seqNo
  }

  /** How much longer the stored history is than the output that survives. */
  ghost function Excess(h: seq<byte>, l: Log, lost: set<nat>): int
    requires l.cursor <= |h|
  {
    |Cold(l)| - |Surviving(h, lost, l.cursor)|
  }

  ghost predicate PassedOver(l: Log, lost: set<nat>) {
    forall i :: i in lost ==> i < l.cursor
  }

  // ---- storing events ----

  lemma SurvivingGrows(h: seq<byte>, lost: set<nat>, from: nat, begin: nat, end: nat)
    requires from <= |h| && begin < end <= |h| && forall i :: i in lost ==> i < from
    ensures var grown := |Surviving(h, lost + Range(from, begin), Max(from, end))| - |Surviving(h, lost, from)|;
            grown <= end - begin && (begin < from ==> grown < end - begin)
  {
    if from <= begin {
      SurvivingPast(h, lost, from, begin, end);
    } else {
      assert lost + Range(from, begin) == lost;
      if from < end {
        SurvivingKeep(h, lost, from, end);
      }
    }
  }

  lemma PersistGrows(h: seq<byte>, l: Log, lost: set<nat>, e: Event)
    requires l.cursor <= |h| && PassedOver(l, lost)
    requires MaxSeq(l.rows) < e.seqNo && PieceOk(h, e.bytes, e.headCursor)
    ensures var l', lost' := Persist(l, e), lost + Range(l.cursor, e.Begin());
            && l'.cursor == Max(l.cursor, e.headCursor) <= |h| && PassedOver(l', lost')
            && MaxSeq(l'.rows) == e.seqNo
            && Excess(h, l, lost) <= Excess(h, l', lost')
            && (e.Begin() < l.cursor ==> Excess(h, l, lost) < Excess(h, l', lost'))
  {
    NewRowExtends(l.rows, MaxSeq(l.rows), e.seqNo, e.bytes);
    MaxIs(l.rows[e.seqNo := e.bytes], e.seqNo);
    SurvivingGrows(h, lost, l.cursor, e.Begin(), e.headCursor);
  }

  lemma OverlapInRest(from: nat, es: seq<Event>, i: nat)
    requires 0 < i < |es| && Overlaps(from, es, i)
    ensures Overlaps(Max(from, es[0].headCursor), es[1..], i - 1)
  {
  }

  lemma NumberedRest(after: nat, es: seq<Event>, last: nat)
    requires Numbered(after, es, last) && es != []
    ensures Numbered(es[0].seqNo, es[1..], last)
  {
  }

  lemma {:induction false} BatchGrows(h: seq<byte>, l: Log, lost: set<nat>, es: seq<Event>, last: nat)
    requires l.cursor <= |h| && PassedOver(l, lost)
    requires Numbered(MaxSeq(l.rows), es, last) && EventsArePieces(h, es)
    ensures var l', lost' := PersistAll(l, es), lost + Skipped(l.cursor, es);
            && l'.cursor <= |h| && PassedOver(l', lost')
            && MaxSeq(l'.rows) == (if es == [] then MaxSeq(l.rows) else es[|es| - 1].seqNo)
            && (es != [] ==> es[|es| - 1].headCursor <= l'.cursor)
            && Excess(h, l, lost) <= Excess(h, l', lost')
            && (SomeOverlap(l.cursor, es) ==> Excess(h, l, lost) < Excess(h, l', lost'))
    decreases |es|
  {
    if es == [] {
      assert lost + {} == lost;
    } else {
      var e := es[0];
      var l1, lost1 := Persist(l, e), lost + Range(l.cursor, e.Begin());
      assert PieceOk(h, e.bytes, e.headCursor);
      PersistGrows(h, l, lost, e);
      NumberedRest(MaxSeq(l.rows), es, last);
      assert forall i :: 0 <= i < |es| - 1 ==> es[1..][i] == es[i + 1];
      BatchGrows(h, l1, lost1, es[1..], last);
      assert lost1 + Skipped(l1.cursor, es[1..]) == lost + Skipped(l.cursor, es);
      if i :| 0 < i < |es| && Overlaps(l.cursor, es, i) {
        OverlapInRest(l.cursor, es, i);
      }
    }
  }

  // ---- every run ----

  ghost predicate Counted(w: World) {
    && w.log.cursor <= |w.ring.history|
    && PassedOver(w.log, w.lost)
    && 0 <= Excess(w.ring.history, w.log, w.lost)
    && (!w.daemon.Down? ==> Numbered(MaxSeq(w.log.rows), w.daemon.queue, w.daemon.lastSeq))
  }

  lemma PushKeepsCounted(w: World, p: R.Push)
    requires Sound(w) && Counted(w)
    ensures Counted(Step(w, Push(p)))
  {
    R.ApplyKeepsValid(w.ring, p);
    var h, h' := w.ring.history, R.Apply(w.ring, p).history;
    assert h' == h + h'[|h|..];
    SurvivingFrame(h, h'[|h|..], w.lost, {}, w.log.cursor);
    assert w.lost + {} == w.lost;
  }

  lemma CommitGrows(w: World, n: nat)
    requires Sound(w) && Counted(w) && Can(w, Commit(n))
    ensures Counted(Step(w, Commit(n)))
    ensures var w' := Step(w, Commit(n));
            && Excess(w.ring.history, w.log, w.lost) <= Excess(w.ring.history, w'.log, w'.lost)
            && (SomeOverlap(w.log.cursor, w.daemon.queue[..n]) ==>
                  Excess(w.ring.history, w.log, w.lost) < Excess(w.ring.history, w'.log, w'.lost))
            && w.daemon.queue[n - 1].headCursor <= w'.log.cursor
  {
    var es := w.daemon.queue[..n];
    assert forall i :: 0 <= i < n ==> es[i] == w.daemon.queue[i];
    BatchGrows(w.ring.history, w.log, w.lost, es, w.daemon.lastSeq);
  }

  lemma ReceiveKeepsCounted(w: World)
    requires Counted(w) && Can(w, Receive)
    ensures Counted(Step(w, Receive))
  {
  }

  lemma AdoptKeepsCounted(w: World)
    requires Counted(w) && Can(w, Adopt)
    ensures Counted(Step(w, Adopt))
  {
  }

  lemma StepKeepsCounted(w: World, a: Act)
    requires Sound(w) && Counted(w) && Can(w, a)
    ensures Counted(Step(w, a))
  {
    match a {
      case Push(p) => PushKeepsCounted(w, p);
      case Receive => ReceiveKeepsCounted(w);
      case Commit(n) => CommitGrows(w, n);
      case Adopt => AdoptKeepsCounted(w);
      case _ =>
    }
  }

  lemma {:induction false} RunKeepsCounted(w: World, acts: seq<Act>)
    requires Sound(w) && Counted(w) && After(w, acts).Some?
    ensures Sound(After(w, acts).value) && Counted(After(w, acts).value)
  {
    if acts != [] {
      RunKeepsCounted(w, acts[..|acts| - 1]);
      StepKeepsSound(After(w, acts[..|acts| - 1]).value, acts[|acts| - 1]);
      StepKeepsCounted(After(w, acts[..|acts| - 1]).value, acts[|acts| - 1]);
    }
  }

  lemma OrderedIsCounted(w: World)
    requires Inv(w)
    ensures Counted(w) && Excess(w.ring.history, w.log, w.lost) == 0
  {
    if !w.daemon.Down? {
      EventsAreNumbered(w.ring.history, w.log.cursor, MaxSeq(w.log.rows), w.daemon.queue,
                        QueueEnd(w.log.cursor, w.daemon.queue), w.daemon.lastSeq);
    }
  }

  lemma {:induction false} EventsAreNumbered(h: seq<byte>, from: nat, after: nat, es: seq<Event>, to: nat, last: nat)
    requires EventsOk(h, from, after, es, to, last)
    ensures Numbered(after, es, last)
    decreases |es|
  {
    if es != [] {
      EventsAreNumbered(h, es[0].headCursor, es[0].seqNo, es[1..], to, last);
      assert forall i :: 0 < i < |es| ==> es[i] == es[1..][i - 1];
    }
  }

  /** On every run whatever, what is stored is never shorter than the output that survives. */
  lemma NeverStoresTooLittle(cap: nat, acts: seq<Act>)
    requires After(Init(cap), acts).Some?
    ensures var w := After(Init(cap), acts).value;
            w.log.cursor <= |w.ring.history| && |Surviving(w.ring.history, w.lost, w.log.cursor)| <= |Cold(w.log)|
  {
    InitIsOk(cap);
    OrderedIsCounted(Init(cap));
    RunKeepsCounted(Init(cap), acts);
  }

  // ---- an event out of place is stored ----

  /** Too much is stored, or is about to be. */
  ghost predicate TooMuch(w: World) {
    && Sound(w) && Counted(w) && !w.daemon.Down?
    && (0 < Excess(w.ring.history, w.log, w.lost) || SomeOverlap(w.log.cursor, w.daemon.queue))
  }

  lemma OverlapSplits(from: nat, es: seq<Event>, n: nat, to: nat)
    requires 0 < n <= |es| && es[n - 1].headCursor <= to && SomeOverlap(from, es)
    ensures SomeOverlap(from, es[..n]) || SomeOverlap(to, es[n..])
  {
    var i :| 0 <= i < |es| && Overlaps(from, es, i);
    if i < n {
      assert Overlaps(from, es[..n], i);
    } else {
      assert Overlaps(to, es[n..], i - n);
    }
  }

  lemma CommitKeepsTooMuch(w: World, n: nat)
    requires TooMuch(w) && Can(w, Commit(n))
    ensures TooMuch(Step(w, Commit(n)))
  {
    StepKeepsSound(w, Commit(n));
    CommitGrows(w, n);
    if SomeOverlap(w.log.cursor, w.daemon.queue) {
      OverlapSplits(w.log.cursor, w.daemon.queue, n, Step(w, Commit(n)).log.cursor);
    }
  }

  /** The writer commits all that is queued, batch by batch. */
  lemma {:induction false} TooMuchIsStored(w: World) returns (acts: seq<Act>, w': World)
    requires TooMuch(w)
    ensures After(w, acts) == Some(w') && forall i :: 0 <= i < |acts| ==> acts[i].Commit?
    ensures Counted(w') && 0 < Excess(w'.ring.history, w'.log, w'.lost)
    decreases if w.daemon.Down? then 0 else |w.daemon.queue|
  {
    if w.daemon.queue == [] {
      acts, w' := [], w;
    } else {
      var a := Commit(Min(|w.daemon.queue|, MAX_BATCH));
      CommitKeepsTooMuch(w, a.n);
      AfterOne(w, a);
      var rest: seq<Act>;
      rest, w' := TooMuchIsStored(Step(w, a));
      AfterConcat(w, [a], rest);
      acts := [a] + rest;
    }
  }
}
