/**
 A session's bounded input queue: any number of connections sending, one thread
 writing to the PTY, and a byte counter they share without a lock.
 */
module InputQueue {
  import opened Base

  const INPUT_QUEUE_BYTES: nat := 1024 * 1024

  type ConnId = nat

  /** Where one `send_input` call stands: about to load the counter, about to reserve, about to send, about to undo. */
  datatype Sender =
    | Checked(data: seq<byte>) | Loaded(data: seq<byte>)
    | Reserved(data: seq<byte>) | Undoing(data: seq<byte>)

  /** `accepted` and `written`: chunks put on the channel and chunks the writer has finished, over the whole life. */
  datatype State = State(
    alive: bool, open: bool, queued: nat, senders: map<ConnId, Sender>, channel: seq<seq<byte>>,
    writing: Option<seq<byte>>, accepted: seq<seq<byte>>, written: seq<seq<byte>>)

  datatype Act =
    | Begin(conn: ConnId, data: seq<byte>)
    | Load(conn: ConnId) | Reserve(conn: ConnId) | Send(conn: ConnId) | Undo(conn: ConnId)
    | Receive | Finish
    | Die | Release

  predicate Can(s: State, a: Act) {
    match a
    case Begin(c, _) => c !in s.senders
    case Load(c) => c in s.senders && s.senders[c].Checked?
    case Reserve(c) => c in s.senders && s.senders[c].Loaded?
    case Send(c) => c in s.senders && s.senders[c].Reserved?
    case Undo(c) => c in s.senders && s.senders[c].Undoing?
    case Receive => s.writing == None && s.channel != []
    case Finish => s.writing.Some?
    case Die => s.alive
    case Release => !s.alive && s.open
  }

  function Step(s: State, a: Act): State
    requires Can(s, a)
  {
    match a
    case Begin(c, data) => if s.alive then s.(senders := s.senders[c := Checked(data)]) else s
    case Load(c) =>
      var data := s.senders[c].data;
      if s.queued + |data| > INPUT_QUEUE_BYTES then s.(senders := s.senders - {c})
      else s.(senders := s.senders[c := Loaded(data)])
    case Reserve(c) =>
      var data := s.senders[c].data;
      s.(queued := s.queued + |data|, senders := s.senders[c := Reserved(data)])
    case Send(c) =>
      var data := s.senders[c].data;
      if s.open then s.(senders := s.senders - {c}, channel := s.channel + [data], accepted := s.accepted + [data])
      else s.(senders := s.senders[c := Undoing(data)])
    case Undo(c) =>
      s.(queued := SatSub(s.queued, |s.senders[c].data|), senders := s.senders - {c})
    case Receive => s.(writing := Some(s.channel[0]), channel := s.channel[1..])
    case Finish =>
      s.(queued := SatSub(s.queued, |s.writing.value|), writing := None, written := s.written + [s.writing.value])
    case Die => s.(alive := false)
    case Release => s.(open := false)
  }

  function Start(): State {
    State(true, true, 0, map[], [], None, [], [])
  }

  function From(s: State, acts: seq<Act>): Option<State> {
    if acts == [] then Some(s)
    else
      match From(s, acts[..|acts| - 1])
      case None => None
      case Some(m) => if Can(m, acts[|acts| - 1]) then Some(Step(m, acts[|acts| - 1])) else None
  }

  function After(acts: seq<Act>): Option<State> {
    From(Start(), acts)
  }

  // ---- accounting ----

  function Held(k: Sender): nat {
    if k.Reserved? || k.Undoing? then |k.data| else 0
  }

  ghost function Total(m: map<ConnId, Sender>, weight: Sender -> nat): nat
    decreases |m|
  {
    if m == map[] then 0
    else
      var c :| c in m;
      weight(m[c]) + Total(m - {c}, weight)
  }

  lemma {:induction false} TotalWithout(m: map<ConnId, Sender>, weight: Sender -> nat, c: ConnId)
    requires c in m
    ensures Total(m, weight) == weight(m[c]) + Total(m - {c}, weight)
    decreases |m|
  {
    var d :| d in m && Total(m, weight) == weight(m[d]) + Total(m - {d}, weight);
    if d != c {
      TotalWithout(m - {d}, weight, c);
      TotalWithout(m - {c}, weight, d);
      assert m - {d} - {c} == m - {c} - {d};
    }
  }

  lemma TotalWith(m: map<ConnId, Sender>, weight: Sender -> nat, c: ConnId, k: Sender)
    ensures Total(m[c := k], weight) == Total(m - {c}, weight) + weight(k)
    ensures Total(m, weight) == Total(m - {c}, weight) + (if c in m then weight(m[c]) else 0)
  {
    TotalWithout(m[c := k], weight, c);
    assert m[c := k] - {c} == m - {c};
    if c in m {
      TotalWithout(m, weight, c);
    } else {
      assert m - {c} == m;
    }
  }

  ghost function HeldBy(m: map<ConnId, Sender>): nat {
    Total(m, Held)
  }

  function Bytes(chunks: seq<seq<byte>>): nat {
    if chunks == [] then 0 else |chunks[0]| + Bytes(chunks[1..])
  }

  lemma {:induction false} BytesAppend(chunks: seq<seq<byte>>, c: seq<byte>)
    ensures Bytes(chunks + [c]) == Bytes(chunks) + |c|
  {
    if chunks != [] {
      BytesAppend(chunks[1..], c);
      assert (chunks + [c])[1..] == chunks[1..] + [c];
    }
  }

  function InHand(w: Option<seq<byte>>): seq<seq<byte>> {
    if w.Some? then [w.value] else []
  }

  ghost predicate CountIsExact(s: State) {
    s.queued == HeldBy(s.senders) + Bytes(s.channel) + Bytes(InHand(s.writing))
  }

  predicate InOrder(s: State) {
    s.accepted == s.written + InHand(s.writing) + s.channel
  }

  ghost predicate Inv(s: State) {
    CountIsExact(s) && InOrder(s)
  }

  lemma SenderKeepsCount(s: State, a: Act, data: seq<byte>)
    requires CountIsExact(s) && Can(s, a)
    requires a.Begin? || a.Load? || a.Reserve? || a.Send? || a.Undo?
    requires data == if a.Begin? then a.data else s.senders[a.conn].data
    ensures CountIsExact(Step(s, a))
  {
    match a {
      case Begin(c, _) => TotalWith(s.senders, Held, c, Checked(data));
      case Load(c) => TotalWith(s.senders, Held, c, Loaded(data));
      case Reserve(c) => TotalWith(s.senders, Held, c, Reserved(data));
      case Send(c) =>
        TotalWith(s.senders, Held, c, Undoing(data));
        BytesAppend(s.channel, data);
      case Undo(c) => TotalWith(s.senders, Held, c, Undoing(data));
    }
  }

  lemma StepKeepsCount(s: State, a: Act)
    requires CountIsExact(s) && Can(s, a)
    ensures CountIsExact(Step(s, a))
  {
    match a {
      case Begin(_, data) => SenderKeepsCount(s, a, data);
      case Load(c) => SenderKeepsCount(s, a, s.senders[c].data);
      case Reserve(c) => SenderKeepsCount(s, a, s.senders[c].data);
      case Send(c) => SenderKeepsCount(s, a, s.senders[c].data);
      case Undo(c) => SenderKeepsCount(s, a, s.senders[c].data);
      case Receive => assert Bytes([s.channel[0]]) == |s.channel[0]| + Bytes([]);
      case Finish => assert Bytes([s.writing.value]) == |s.writing.value| + Bytes([]);
      case _ =>
    }
  }

  lemma StepKeepsOrder(s: State, a: Act)
    requires InOrder(s) && Can(s, a)
    ensures InOrder(Step(s, a))
  {
    var done, hand := s.written, InHand(s.writing);
    match a {
      case Send(c) =>
        var data := s.senders[c].data;
        assert (done + hand + s.channel) + [data] == done + hand + (s.channel + [data]);
      case Receive =>
        assert done + [] + s.channel == done + [s.channel[0]] + s.channel[1..];
      case Finish =>
        assert done + hand + s.channel == (done + hand) + [] + s.channel;
      case _ =>
    }
  }

  /**
   Under every interleaving of senders and the writer: the counter is exactly the
   bytes reserved, on the channel and being written, so no subtraction from it
   underflows; and the chunks accepted are those written, the one in hand and those
   waiting, in that order.
   */
  lemma {:induction false} EveryRunKeepsInv(acts: seq<Act>)
    requires After(acts).Some?
    ensures Inv(After(acts).value)
    ensures var s := After(acts).value;
            && (forall c :: c in s.senders ==> Held(s.senders[c]) <= s.queued)
            && (s.writing.Some? ==> |s.writing.value| <= s.queued)
            && s.written <= s.accepted
  {
    if acts == [] {
      assert After(acts).value == Start();
    } else {
      EveryRunKeepsInv(acts[..|acts| - 1]);
      StepKeepsCount(After(acts[..|acts| - 1]).value, acts[|acts| - 1]);
      StepKeepsOrder(After(acts[..|acts| - 1]).value, acts[|acts| - 1]);
    }
    var s := After(acts).value;
    forall c | c in s.senders
      ensures Held(s.senders[c]) <= s.queued
    {
      TotalWithout(s.senders, Held, c);
    }
  }

  /** A call that begins once the session has ended comes to nothing. */
  lemma DeadSessionsTakeNoInput(s: State, c: ConnId, data: seq<byte>)
    requires !s.alive && Can(s, Begin(c, data))
    ensures Step(s, Begin(c, data)) == s
  {
  }

  predicate Ends(s: State) {
    !s.alive && !s.open
  }

  /** The end of a session, and of its channel, is final: after it nothing more is accepted. */
  lemma {:induction false} NothingIsAcceptedAfterTheEnd(s: State, acts: seq<Act>)
    requires Ends(s) && From(s, acts).Some?
    ensures Ends(From(s, acts).value) && From(s, acts).value.accepted == s.accepted
  {
    if acts != [] {
      NothingIsAcceptedAfterTheEnd(s, acts[..|acts| - 1]);
    }
  }

  /** A session can end at any moment, and its channel after it. */
  lemma SessionsEnd(s: State)
    requires s.alive && s.open
    ensures Can(s, Die) && Can(Step(s, Die), Release) && Ends(Step(Step(s, Die), Release))
    ensures Step(Step(s, Die), Release) == s.(alive := false, open := false)
  {
  }

  /** The steps that take the writer from where it stands to a finished chunk. */
  function WriteOne(s: State): seq<Act> {
    if s.writing.Some? then [Finish] else [Receive, Finish]
  }

  lemma FromOne(s: State, a: Act)
    requires Can(s, a)
    ensures From(s, [a]) == Some(Step(s, a))
  {
    assert [a][..0] == [];
  }

  lemma FromTwo(s: State, a: Act, b: Act)
    requires Can(s, a) && Can(Step(s, a), b)
    ensures From(s, [a, b]) == Some(Step(Step(s, a), b))
  {
    FromOne(s, a);
    assert [a, b][..1] == [a];
  }

  lemma FinishesOne(s: State)
    requires Inv(s) && s.writing.Some?
    ensures Inv(Step(s, Finish)) && Step(s, Finish).writing == None && Step(s, Finish).channel == s.channel
    ensures Step(s, Finish).accepted == s.accepted && Step(s, Finish).senders == s.senders
  {
    StepKeepsCount(s, Finish);
    StepKeepsOrder(s, Finish);
  }

  lemma ReceivesOne(s: State)
    requires Inv(s) && s.writing == None && s.channel != []
    ensures Inv(Step(s, Receive)) && Step(s, Receive).writing.Some? && Step(s, Receive).channel == s.channel[1..]
    ensures Step(s, Receive).accepted == s.accepted && Step(s, Receive).senders == s.senders
  {
    StepKeepsCount(s, Receive);
    StepKeepsOrder(s, Receive);
  }

  lemma WritesOne(s: State)
    requires Inv(s) && (s.writing.Some? || s.channel != [])
    ensures From(s, WriteOne(s)).Some?
    ensures var s' := From(s, WriteOne(s)).value;
            && Inv(s') && s'.writing == None && s'.accepted == s.accepted && s'.senders == s.senders
            && |s'.channel| + |InHand(s'.writing)| < |s.channel| + |InHand(s.writing)|
  {
    if s.writing.Some? {
      FromOne(s, Finish);
      FinishesOne(s);
    } else {
      FromTwo(s, Receive, Finish);
      ReceivesOne(s);
      FinishesOne(Step(s, Receive));
    }
  }

  lemma {:induction false} FromConcat(s: State, first: seq<Act>, rest: seq<Act>)
    requires From(s, first).Some?
    ensures From(s, first + rest) == From(From(s, first).value, rest)
  {
    if rest == [] {
      assert first + rest == first;
    } else {
      FromConcat(s, first, rest[..|rest| - 1]);
      assert (first + rest)[..|first + rest| - 1] == first + rest[..|rest| - 1];
    }
  }

  /** From every state of every run the writer alone can write all that was accepted, in order, and count it off. */
  lemma {:induction false} AcceptedInputIsWritten(s: State) returns (acts: seq<Act>, s': State)
    requires Inv(s)
    ensures From(s, acts) == Some(s') && forall i :: 0 <= i < |acts| ==> acts[i].Receive? || acts[i].Finish?
    ensures Inv(s') && s'.written == s.accepted && s'.queued == HeldBy(s.senders)
    decreases |s.channel| + |InHand(s.writing)|
  {
    if s.writing == None && s.channel == [] {
      acts, s' := [], s;
    } else {
      WritesOne(s);
      var m := From(s, WriteOne(s)).value;
      var rest: seq<Act>;
      rest, s' := AcceptedInputIsWritten(m);
      FromConcat(s, WriteOne(s), rest);
      acts := WriteOne(s) + rest;
    }
  }

  // ---- the bound ----

  /** A send starts only when no other is under way. */
  predicate InTurn(s: State, a: Act) {
    a.Begin? ==> s.senders == map[]
  }

  predicate InTurnRun(acts: seq<Act>) {
    acts != [] ==>
      && InTurnRun(acts[..|acts| - 1])
      && (After(acts[..|acts| - 1]).Some? ==> InTurn(After(acts[..|acts| - 1]).value, acts[|acts| - 1]))
  }

  ghost predicate Bounded(s: State) {
    && (forall c, d :: c in s.senders && d in s.senders ==> c == d)
    && s.queued <= INPUT_QUEUE_BYTES
    && (forall c :: c in s.senders && s.senders[c].Loaded? ==> s.queued + |s.senders[c].data| <= INPUT_QUEUE_BYTES)
  }

  lemma InTurnKeepsBounded(s: State, a: Act)
    requires Bounded(s) && Can(s, a) && InTurn(s, a)
    ensures Bounded(Step(s, a))
  {
    match a {
      case Begin(c, data) => assert s.alive ==> Step(s, a).senders == map[c := Checked(data)];
      case _ =>
    }
  }

  /**
   With one sender at a time the queue stays within its limit, although the counter may be stale
   when it is added to.
   */
  lemma {:induction false} OneSenderStaysBounded(acts: seq<Act>)
    requires After(acts).Some? && InTurnRun(acts)
    ensures Bounded(After(acts).value)
  {
    if acts != [] {
      OneSenderStaysBounded(acts[..|acts| - 1]);
      InTurnKeepsBounded(After(acts[..|acts| - 1]).value, acts[|acts| - 1]);
    }
  }

  // ---- any number of senders ----

  /** Bytes of a send that has passed the check and not yet been counted, and whether it is such a send. */
  function Pledged(k: Sender): nat {
    if k.Loaded? then |k.data| else 0
  }

  function Passing(k: Sender): nat {
    if k.Loaded? then 1 else 0
  }

  /** The largest number of sends at once, so far, between their check and their adding to the counter. */
  ghost function Peak(acts: seq<Act>): nat {
    if acts == [] then 0
    else
      var now := if After(acts).Some? then Total(After(acts).value.senders, Passing) else 0;
      Max(Peak(acts[..|acts| - 1]), now)
  }

  ghost predicate PledgesFit(m: map<ConnId, Sender>) {
    forall c :: c in m && m[c].Loaded? ==> |m[c].data| <= INPUT_QUEUE_BYTES
  }

  lemma {:induction false} PledgedFits(m: map<ConnId, Sender>)
    requires PledgesFit(m)
    ensures Total(m, Pledged) <= INPUT_QUEUE_BYTES * Total(m, Passing)
    decreases |m|
  {
    if m != map[] {
      var c :| c in m;
      PledgedFits(m - {c});
      TotalWithout(m, Pledged, c);
      TotalWithout(m, Passing, c);
    }
  }

  lemma LoadPledges(s: State, c: ConnId)
    requires Can(s, Load(c)) && PledgesFit(s.senders)
    ensures var data, s' := s.senders[c].data, Step(s, Load(c));
            if s.queued + |data| > INPUT_QUEUE_BYTES then Total(s'.senders, Pledged) == Total(s.senders, Pledged)
            else s'.queued + Total(s'.senders, Pledged) <= INPUT_QUEUE_BYTES * Total(s'.senders, Passing)
  {
    var data := s.senders[c].data;
    TotalWith(s.senders, Pledged, c, Loaded(data));
    TotalWith(s.senders, Passing, c, Loaded(data));
    PledgedFits(s.senders - {c});
  }

  /**
   Counted and pledged bytes rise only when a send passes its check, and then they fit the limit
   once for each such send.
   */
  lemma StepPledges(s: State, a: Act)
    requires Can(s, a) && PledgesFit(s.senders)
    ensures PledgesFit(Step(s, a).senders)
    ensures var s' := Step(s, a);
            || s'.queued + Total(s'.senders, Pledged) <= s.queued + Total(s.senders, Pledged)
            || s'.queued + Total(s'.senders, Pledged) <= INPUT_QUEUE_BYTES * Total(s'.senders, Passing)
  {
    match a {
      case Begin(c, data) =>
        TotalWith(s.senders, Pledged, c, Checked(data));
      case Load(c) =>
        LoadPledges(s, c);
      case Reserve(c) =>
        TotalWith(s.senders, Pledged, c, Reserved(s.senders[c].data));
      case Send(c) =>
        TotalWith(s.senders, Pledged, c, Undoing(s.senders[c].data));
      case Undo(c) =>
        TotalWith(s.senders, Pledged, c, Undoing(s.senders[c].data));
      case _ =>
    }
  }

  /**
   However many connections send, the queue stays within its limit times the largest
   number of sends that were ever between their check and their adding to the counter
   at once: each such send is let in by a counter that does not show the others.
   */
  lemma {:induction false} QueueIsBoundedByPeak(acts: seq<Act>)
    requires After(acts).Some?
    ensures var s := After(acts).value;
            && PledgesFit(s.senders)
            && s.queued + Total(s.senders, Pledged) <= INPUT_QUEUE_BYTES * Peak(acts)
  {
    if acts == [] {
      assert After(acts).value == Start();
    } else {
      QueueIsBoundedByPeak(acts[..|acts| - 1]);
      StepPledges(After(acts[..|acts| - 1]).value, acts[|acts| - 1]);
    }
  }

  lemma AfterMore(acts: seq<Act>, a: Act)
    requires After(acts).Some? && Can(After(acts).value, a)
    ensures After(acts + [a]) == Some(Step(After(acts).value, a))
  {
    assert (acts + [a])[..|acts|] == acts;
  }

  /** Two senders that both load the counter before either adds to it can queue twice the limit. */
  lemma TwoSendersCanExceed(one: seq<byte>, two: seq<byte>) returns (acts: seq<Act>)
    requires |one| == INPUT_QUEUE_BYTES && |two| == INPUT_QUEUE_BYTES
    ensures After(acts).Some? && After(acts).value.queued == 2 * INPUT_QUEUE_BYTES
    ensures After(acts).value.channel == [one, two]
  {
    acts := [];
    AfterMore(acts, Begin(1, one));
    acts := acts + [Begin(1, one)];
    AfterMore(acts, Begin(2, two));
    acts := acts + [Begin(2, two)];
    AfterMore(acts, Load(1));
    acts := acts + [Load(1)];
    AfterMore(acts, Load(2));
    acts := acts + [Load(2)];
    AfterMore(acts, Reserve(1));
    acts := acts + [Reserve(1)];
    AfterMore(acts, Reserve(2));
    acts := acts + [Reserve(2)];
    AfterMore(acts, Send(1));
    acts := acts + [Send(1)];
    AfterMore(acts, Send(2));
    acts := acts + [Send(2)];
  }

  // ---- one call at a time ----

  datatype Outcome = Queued | Overflow | NotAlive

  class Queue {
    var alive: bool
    var open: bool
    var queued: nat
    var channel: seq<seq<byte>>
    var accepted: seq<seq<byte>>
    var written: seq<seq<byte>>

    constructor ()
      ensures Now() == Start()
    {
      alive, open, queued, channel, accepted, written := true, true, 0, [], [], [];
    }

    /** The shared state between calls: no send under way, nothing in the writer's hand. */
    ghost function Now(): State
      reads this
    {
      State(alive, open, queued, map[], channel, None, accepted, written)
    }

    /**
     A send with nobody in between: queued whole or without effect, for want of a live
     session or of room, and the same as its steps from load to send or undo.
     */
    method SendInput(data: seq<byte>, ghost c: ConnId) returns (outcome: Outcome)
      modifies this
      ensures outcome == Queued <==> old(alive && open && queued + |data| <= INPUT_QUEUE_BYTES)
      ensures outcome == Overflow <==> old(alive && queued + |data| > INPUT_QUEUE_BYTES)
      ensures Now() == SentInTurn(old(Now()), c, data)
      ensures outcome == Queued ==> channel == old(channel) + [data] && queued == old(queued) + |data|
      ensures outcome != Queued ==> Now() == old(Now())
    {
      SentInTurnIs(Now(), c, data);
      if !alive {
        return NotAlive;
      }
      if queued + |data| > INPUT_QUEUE_BYTES {
        return Overflow;
      }
      queued := queued + |data|;
      if !open {
        queued := queued - |data|;
        return NotAlive;
      }
      channel := channel + [data];
      accepted := accepted + [data];
      outcome := Queued;
    }

    /** The writer thread until its channel is empty: everything waiting is written, in order, and no longer counted. */
    method WriterLoop()
      requires Inv(Now())
      modifies this`queued, this`channel, this`written
      ensures Inv(Now()) && channel == [] && written == old(written) + old(channel) && queued == 0
    {
      while channel != []
        invariant Inv(Now()) && written + channel == old(written) + old(channel)
        decreases |channel|
      {
        Regroup(written, [channel[0]], channel[1..]);
        WriteNext();
      }
      assert HeldBy(Now().senders) == 0;
    }

    method WriteNext()
      requires Inv(Now()) && channel != []
      modifies this`queued, this`channel, this`written
      ensures Inv(Now()) && channel == old(channel)[1..] && written == old(written) + [old(channel)[0]]
      ensures queued == SatSub(old(queued), |old(channel)[0]|)
    {
      ReceivesOne(Now());
      FinishesOne(Step(Now(), Receive));
      var data := channel[0];
      channel := channel[1..];
      queued := SatSub(queued, |data|);
      written := written + [data];
    }
  }

  /** The steps of one send in a row. */
  function SentInTurn(s: State, c: ConnId, data: seq<byte>): State
    requires c !in s.senders
  {
    var begun := Step(s, Begin(c, data));
    if !s.alive then begun
    else
      var loaded := Step(begun, Load(c));
      if c !in loaded.senders then loaded
      else
        var sent := Step(Step(loaded, Reserve(c)), Send(c));
        if c in sent.senders then Step(sent, Undo(c)) else sent
  }

  lemma SentInTurnIs(s: State, c: ConnId, data: seq<byte>)
    requires c !in s.senders
    ensures SentInTurn(s, c, data)
            == if s.alive && s.open && s.queued + |data| <= INPUT_QUEUE_BYTES then
                 s.(queued := s.queued + |data|, channel := s.channel + [data], accepted := s.accepted + [data])
               else s
  {
    var k0, k1, k2, k3 := Checked(data), Loaded(data), Reserved(data), Undoing(data);
    assert s.senders[c := k0] - {c} == s.senders;
    assert s.senders[c := k0][c := k1] == s.senders[c := k1];
    assert s.senders[c := k1][c := k2] == s.senders[c := k2];
    assert s.senders[c := k2] - {c} == s.senders;
    assert s.senders[c := k2][c := k3] - {c} == s.senders;
  }
}
