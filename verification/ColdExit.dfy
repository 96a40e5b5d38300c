/**
 The end of a session. The drain loop stops at the exit, whose notice the holder's writer
 prefers to output; output that arrives behind it is never stored. All of it is, exactly if
 it had arrived before.
 */
module ColdExit {
  import opened Base
  import P = StreamProtocol
  import opened EventStore
  import opened ColdLog
  import opened ColdStitch
  import opened ColdOrder
  import opened ColdWhole
  import R = RingHistory

  /** After a session's exit: there is no more output, and a restarted daemon does not adopt it. */
  predicate Over(acts: seq<Act>) {
    forall i :: 0 <= i < |acts| ==> !acts[i].Push? && !acts[i].Adopt?
  }

  /** The event writer goes on, and neither it nor the daemon fails. */
  predicate Written(acts: seq<Act>) {
    forall i :: 0 <= i < |acts| ==> acts[i].Commit?
  }

  /** Where the output ends that has been stored or is still queued. */
  function KeptEnd(w: World): nat {
    if w.daemon.Down? then w.log.cursor else QueueEnd(w.log.cursor, w.daemon.queue)
  }

  lemma KeptEndIsPast(w: World)
    requires Inv(w)
    ensures w.log.cursor <= KeptEnd(w) <= |w.ring.history|
  {
    if !w.daemon.Down? {
      EventsEnd(w.ring.history, w.log.cursor, MaxSeq(w.log.rows), w.daemon.queue, KeptEnd(w), w.daemon.lastSeq);
    }
  }

  /** Once the drain loop has ended, nothing but the writer changes what is kept. */
  lemma EndedStep(w: World, a: Act)
    requires Inv(w) && !w.daemon.Up? && Can(w, a) && !a.Push? && !a.Adopt?
    ensures var w' := Step(w, a);
            Inv(w') && !w'.daemon.Up? && w'.ring == w.ring && KeptEnd(w') <= KeptEnd(w)
    ensures a.Commit? ==> KeptEnd(Step(w, a)) == KeptEnd(w)
  {
    StepKeepsInv(w, a);
    match a {
      case Commit(n) => CommitKeepsInv(w, n);
      case FailBatch(n) => FailBatchKeepsInv(w, n);
      case Crash => KeptEndIsPast(w);
    }
  }

  lemma {:induction false} EndedRun(w: World, acts: seq<Act>)
    requires Inv(w) && !w.daemon.Up? && After(w, acts).Some? && Over(acts)
    ensures var w' := After(w, acts).value;
            Inv(w') && !w'.daemon.Up? && w'.ring == w.ring && KeptEnd(w') <= KeptEnd(w)
    ensures Written(acts) ==> KeptEnd(After(w, acts).value) == KeptEnd(w)
  {
    if acts != [] {
      EndedRun(w, acts[..|acts| - 1]);
      EndedStep(After(w, acts[..|acts| - 1]).value, acts[|acts| - 1]);
    }
  }

  /** All of the output is stored exactly if nothing was lost and the cursor is at its end. */
  lemma WholeIff(w: World)
    requires Inv(w)
    ensures Cold(w.log) == w.ring.history <==> w.lost == {} && w.log.cursor == |w.ring.history|
  {
    ExactIffNothingLost(w);
    SurvivingLength(w.ring.history, w.lost, w.log.cursor);
    assert w.ring.history[..|w.ring.history|] == w.ring.history;
  }

  lemma EndsAtExit(cap: nat, before: seq<Act>, w: World, acts: seq<Act>, w': World)
    requires After(Init(cap), before) == Some(w) && OrderlyRun(Init(cap), before) && w.daemon.Up?
    requires After(Step(w, Finish), acts) == Some(w') && Over(acts)
    ensures Inv(w) && Inv(w') && w'.ring == w.ring && w'.log.cursor <= KeptEnd(w') <= KeptEnd(w)
    ensures Written(acts) ==> KeptEnd(w') == KeptEnd(w)
  {
    InitIsOk(cap);
    OrderlyRunsKeepInv(Init(cap), before);
    StepKeepsInv(w, Finish);
    EndedRun(Step(w, Finish), acts);
    KeptEndIsPast(w');
  }

  /** Output that had not arrived when the exit was handled is never stored, whatever follows. */
  lemma LateOutputIsLost(cap: nat, before: seq<Act>, w: World, acts: seq<Act>, w': World)
    requires After(Init(cap), before) == Some(w) && OrderlyRun(Init(cap), before) && w.daemon.Up?
    requires After(Step(w, Finish), acts) == Some(w') && Over(acts)
    requires KeptEnd(w) < w.ring.Head()
    ensures w'.ring == w.ring && w'.log.cursor <= KeptEnd(w) && Cold(w'.log) != w'.ring.history
  {
    EndsAtExit(cap, before, w, acts, w');
    WholeIff(w');
  }

  /**
   When the writer has written all that was queued, everything is stored exactly if no hole
   was passed over and all of the output had arrived when the exit was handled.
   */
  lemma ExitStoresAllIff(cap: nat, before: seq<Act>, w: World, acts: seq<Act>, w': World)
    requires After(Init(cap), before) == Some(w) && OrderlyRun(Init(cap), before) && w.daemon.Up?
    requires After(Step(w, Finish), acts) == Some(w') && Written(acts) && w'.daemon.Ended? && w'.daemon.queue == []
    ensures Cold(w'.log) == w'.ring.history <==> w'.lost == {} && KeptEnd(w) == w.ring.Head()
  {
    EndsAtExit(cap, before, w, acts, w');
    WholeIff(w');
  }

  lemma {:induction false} WrittenKeepsClean(w: World, acts: seq<Act>)
    requires Inv(w) && Clean(w) && After(w, acts).Some? && Written(acts)
    ensures Inv(After(w, acts).value) && Clean(After(w, acts).value)
  {
    if acts != [] {
      var before, a := acts[..|acts| - 1], acts[|acts| - 1];
      WrittenKeepsClean(w, before);
      FaultlessKeepsClean(After(w, before).value, a);
      StepKeepsInv(After(w, before).value, a);
    }
  }

  /** What is on the way is where the route's cursor falls short of the stream. */
  lemma OnTheWayIff(w: World)
    requires Inv(w) && Clean(w) && w.daemon.Up?
    ensures w.daemon.got == w.daemon.sent <==> Flight(w.daemon) == []
  {
    var d := w.daemon;
    FlightEnds(w);
    if Flight(d) != [] {
      FramesBound(w.ring.history, Flight(d)[0].headCursor, Flight(d)[1..], d.sent);
    }
  }

  /**
   On runs with no failed batch and no gap: what is stored in the end is the output up to the
   route's cursor at the moment the exit was handled. So, as the stream that announces the exit
   stands at the final head, everything is stored exactly if the notice overtook nothing.
   */
  lemma ExitStoresWhatArrived(cap: nat, before: seq<Act>, w: World, acts: seq<Act>, w': World)
    requires After(Init(cap), before) == Some(w) && FaultlessRun(Init(cap), before) && w.daemon.Up?
    requires After(Step(w, Finish), acts) == Some(w') && Written(acts) && w'.daemon.Ended? && w'.daemon.queue == []
    ensures w.daemon.got <= |w.ring.history| && Cold(w'.log) == w.ring.history[..w.daemon.got]
    ensures Cold(w'.log) == w'.ring.history <==> w.daemon.got == w.ring.Head()
    ensures w.daemon.sent == w.ring.Head() ==> (Cold(w'.log) == w'.ring.history <==> Flight(w.daemon) == [])
  {
    FaultlessRunsAreClean(cap, before);
    StepKeepsInv(w, Finish);
    FaultlessKeepsClean(w, Finish);
    EndedRun(Step(w, Finish), acts);
    WrittenKeepsClean(Step(w, Finish), acts);
    ExactIffNothingLost(w');
    WholeIff(w');
    OnTheWayIff(w);
  }

  lemma Next(acts: seq<Act>, w: World, a: Act)
    requires After(Init(1), acts) == Some(w) && FaultlessRun(Init(1), acts) && Can(w, a) && Faultless(w, a)
    ensures After(Init(1), acts + [a]) == Some(Step(w, a)) && FaultlessRun(Init(1), acts + [a])
  {
    assert (acts + [a])[..|acts|] == acts;
  }

  /** One byte has been output, handed over by the stream, and not received. */
  lemma HalfWay() returns (acts: seq<Act>, w: World)
    ensures After(Init(1), acts) == Some(w) && FaultlessRun(Init(1), acts) && OrderlyRun(Init(1), acts)
    ensures w.ring.history == [1] && w.log.cursor == 0
    ensures w.daemon.Up? && w.daemon.live && w.daemon.offering == None && w.daemon.sent == 1 && w.daemon.queue == []
  {
    var p := R.Stored([1]);
    acts, w := [], Init(1);
    Next(acts, w, Adopt);
    acts, w := acts + [Adopt], Step(w, Adopt);
    Next(acts, w, Push(p));
    acts, w := acts + [Push(p)], Step(w, Push(p));
    assert w.ring.history[0..1] == [1];
    Next(acts, w, Emit);
    acts, w := acts + [Emit], Step(w, Emit);
    Next(acts, w, Enqueue);
    acts, w := acts + [Enqueue], Step(w, Enqueue);
    FaultlessIsOrderly(1, acts);
  }

  lemma {:induction false} FaultlessIsOrderly(cap: nat, acts: seq<Act>)
    requires After(Init(cap), acts).Some? && FaultlessRun(Init(cap), acts)
    ensures OrderlyRun(Init(cap), acts)
  {
    if acts != [] {
      var before := acts[..|acts| - 1];
      FaultlessIsOrderly(cap, before);
      FaultlessRunsAreClean(cap, before);
      FaultlessKeepsClean(After(Init(cap), before).value, acts[|acts| - 1]);
    }
  }

  /** A notice does overtake output: the stream is at the head, and its last frame is on the way. */
  lemma NoticeOvertakesOutput() returns (before: seq<Act>, w: World)
    ensures After(Init(1), before) == Some(w) && FaultlessRun(Init(1), before)
    ensures w.daemon.Up? && w.daemon.live && w.daemon.offering == None && w.daemon.sent == w.ring.Head()
    ensures forall acts, w' | Over(acts) && After(Step(w, Finish), acts) == Some(w') :: Cold(w'.log) != w'.ring.history
  {
    before, w := HalfWay();
    forall acts, w' | Over(acts) && After(Step(w, Finish), acts) == Some(w')
      ensures Cold(w'.log) != w'.ring.history
    {
      LateOutputIsLost(1, before, w, acts, w');
    }
  }
}
