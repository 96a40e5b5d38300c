/**
 Pairing a proxied request with the data stream its node dials back: a pending
 entry under a fresh stream id, taken at most once, whatever the order of
 dial-back, failed Open and timeout.
 */
module StreamPairing {
  import opened Base

  type StreamId = nat
  type ReqId = nat
  type ConnId = nat

  /**
   `Inserted`: the entry is made and Open not yet sent. `Withdrawing`: Open failed
   or the wait timed out, and the entry is still to be removed. `Abandoned`: the
   client went away and the request was dropped where it stood.
   */
  datatype ReqPc = Inserted | Waiting | Withdrawing | Completed | Abandoned

  /** `received`: what the oneshot channel holds for the request. */
  datatype Req = Req(id: StreamId, pc: ReqPc, received: Option<ConnId>) {
    predicate Listening() {
      pc == Inserted || pc == Waiting
    }
  }

  datatype Dial = Holding(req: ReqId) | Handed(req: ReqId) | Dropped

  datatype State = State(pending: map<StreamId, ReqId>, reqs: map<ReqId, Req>, dials: map<ConnId, (StreamId, Dial)>)

  datatype Act =
    | Mint(req: ReqId, id: StreamId)
    | Open(req: ReqId, ok: bool)
    | Receive(req: ReqId)
    | TimeOut(req: ReqId)
    | Withdraw(req: ReqId)
    | Abandon(req: ReqId)
    | Take(conn: ConnId, id: StreamId)
    | Hand(conn: ConnId)

  /** Stream ids are random UUIDs: a minted id has not been minted before. */
  ghost predicate Fresh(s: State, id: StreamId) {
    forall r :: r in s.reqs ==> s.reqs[r].id != id
  }

  ghost predicate Can(s: State, a: Act) {
    match a
    case Mint(r, id) => r !in s.reqs && Fresh(s, id)
    case Open(r, _) => r in s.reqs && s.reqs[r].pc == Inserted
    case Receive(r) => r in s.reqs && s.reqs[r].pc == Waiting && s.reqs[r].received.Some?
    case TimeOut(r) => r in s.reqs && s.reqs[r].pc == Waiting
    case Withdraw(r) => r in s.reqs && s.reqs[r].pc == Withdrawing
    case Abandon(r) => r in s.reqs && s.reqs[r].pc != Completed && s.reqs[r].pc != Abandoned
    case Take(c, _) => c !in s.dials
    case Hand(c) => c in s.dials && s.dials[c].1.Holding? && s.dials[c].1.req in s.reqs
  }

  function Step(s: State, a: Act): State
    requires Can(s, a)
  {
    match a
    case Mint(r, id) => s.(pending := s.pending[id := r], reqs := s.reqs[r := Req(id, Inserted, None)])
    case Open(r, ok) => s.(reqs := s.reqs[r := s.reqs[r].(pc := if ok then Waiting else Withdrawing)])
    case Receive(r) => s.(reqs := s.reqs[r := s.reqs[r].(pc := Completed)])
    case TimeOut(r) => s.(reqs := s.reqs[r := s.reqs[r].(pc := Withdrawing)])
    case Withdraw(r) => s.(pending := s.pending - {s.reqs[r].id}, reqs := s.reqs[r := s.reqs[r].(pc := Completed)])
    case Abandon(r) => s.(reqs := s.reqs[r := s.reqs[r].(pc := Abandoned)])
    case Take(c, id) =>
      if id in s.pending then s.(pending := s.pending - {id}, dials := s.dials[c := (id, Holding(s.pending[id]))])
      else s.(dials := s.dials[c := (id, Dropped)])
    case Hand(c) =>
      var r := s.dials[c].1.req;
      if s.reqs[r].Listening() then
        s.(reqs := s.reqs[r := s.reqs[r].(received := Some(c))], dials := s.dials[c := (s.dials[c].0, Handed(r))])
      else s.(dials := s.dials[c := (s.dials[c].0, Dropped)])
  }

  function Start(): State {
    State(map[], map[], map[])
  }

  ghost function From(s: State, acts: seq<Act>): Option<State> {
    if acts == [] then Some(s)
    else
      match From(s, acts[..|acts| - 1])
      case None => None
      case Some(m) => if Can(m, acts[|acts| - 1]) then Some(Step(m, acts[|acts| - 1])) else None
  }

  ghost function After(acts: seq<Act>): Option<State> {
    From(Start(), acts)
  }

  ghost predicate PendingOk(s: State) {
    && (forall id :: id in s.pending ==>
          && s.pending[id] in s.reqs && s.reqs[s.pending[id]].id == id && s.reqs[s.pending[id]].pc != Completed
          && s.reqs[s.pending[id]].received == None)
    && (forall r :: r in s.reqs && s.reqs[r].pc == Completed ==> s.reqs[r].id !in s.pending)
  }

  ghost predicate IdsOk(s: State) {
    forall r, q :: r in s.reqs && q in s.reqs && s.reqs[r].id == s.reqs[q].id ==> r == q
  }

  /** A dial-back that took an entry took it under the request's own id, and the entry is gone. */
  ghost predicate TakesOk(s: State) {
    forall c :: c in s.dials && s.dials[c].1 != Dropped ==>
      && s.dials[c].1.req in s.reqs
      && s.dials[c].0 == s.reqs[s.dials[c].1.req].id
      && s.dials[c].0 !in s.pending
  }

  ghost predicate OneTakePerId(s: State) {
    forall c, d | c in s.dials && d in s.dials && s.dials[c].1 != Dropped && s.dials[d].1 != Dropped ::
      s.dials[c].0 == s.dials[d].0 ==> c == d
  }

  ghost predicate ReceivedOk(s: State) {
    forall r :: r in s.reqs && s.reqs[r].received.Some? ==>
      s.reqs[r].received.value in s.dials && s.dials[s.reqs[r].received.value] == (s.reqs[r].id, Handed(r))
  }

  ghost predicate Inv(s: State) {
    PendingOk(s) && IdsOk(s) && TakesOk(s) && OneTakePerId(s) && ReceivedOk(s)
  }

  lemma StepKeepsPending(s: State, a: Act)
    requires PendingOk(s) && IdsOk(s) && TakesOk(s) && ReceivedOk(s) && Can(s, a)
    ensures PendingOk(Step(s, a))
  {
  }

  lemma StepKeepsIds(s: State, a: Act)
    requires IdsOk(s) && Can(s, a)
    ensures IdsOk(Step(s, a))
  {
  }

  lemma StepKeepsTakes(s: State, a: Act)
    requires PendingOk(s) && TakesOk(s) && Can(s, a)
    ensures TakesOk(Step(s, a))
  {
  }

  lemma StepKeepsOneTake(s: State, a: Act)
    requires PendingOk(s) && TakesOk(s) && OneTakePerId(s) && Can(s, a)
    ensures OneTakePerId(Step(s, a))
  {
  }

  lemma StepKeepsReceived(s: State, a: Act)
    requires Inv(s) && Can(s, a)
    ensures ReceivedOk(Step(s, a))
  {
  }

  lemma {:induction false} EveryRunKeepsInv(acts: seq<Act>)
    requires After(acts).Some?
    ensures Inv(After(acts).value)
  {
    if acts != [] {
      EveryRunKeepsInv(acts[..|acts| - 1]);
      var s := After(acts[..|acts| - 1]).value;
      StepKeepsPending(s, acts[|acts| - 1]);
      StepKeepsIds(s, acts[|acts| - 1]);
      StepKeepsTakes(s, acts[|acts| - 1]);
      StepKeepsOneTake(s, acts[|acts| - 1]);
      StepKeepsReceived(s, acts[|acts| - 1]);
    }
  }

  /**
   In every ordering: a dial-back is handed to at most one request, and to the one
   whose id it carries; of the dial-backs carrying one id at most one takes the
   entry; and a request that ran to completion has left no entry behind.
   */
  lemma PairsAtMostOnce(acts: seq<Act>)
    requires After(acts).Some?
    ensures var s := After(acts).value;
            && (forall r, q | r in s.reqs && q in s.reqs && s.reqs[r].received.Some? ::
                  s.reqs[r].received == s.reqs[q].received ==> r == q)
            && (forall r :: r in s.reqs && s.reqs[r].received.Some? ==>
                  s.reqs[r].received.value in s.dials && s.dials[s.reqs[r].received.value].0 == s.reqs[r].id)
            && (forall c, d | c in s.dials && d in s.dials && s.dials[c].0 == s.dials[d].0 ::
                  s.dials[c].1 != Dropped && s.dials[d].1 != Dropped ==> c == d)
            && (forall r :: r in s.reqs && s.reqs[r].pc == Completed ==> s.reqs[r].id !in s.pending)
  {
    EveryRunKeepsInv(acts);
  }

  // ---- pairing happens ----

  lemma FromOne(s: State, a: Act)
    requires Can(s, a)
    ensures From(s, [a]) == Some(Step(s, a))
  {
    assert [a][..0] == [];
  }

  lemma FromMore(s: State, acts: seq<Act>, a: Act)
    requires From(s, acts).Some? && Can(From(s, acts).value, a)
    ensures From(s, acts + [a]) == Some(Step(From(s, acts).value, a))
  {
    assert (acts + [a])[..|acts|] == acts;
  }

  /**
   Wherever a request waits with its entry in place, a dial-back that carries its id gets
   through: it takes the entry, the request receives just that stream and completes, and
   nothing else has changed.
   */
  lemma WaitingIsPaired(before: seq<Act>, s: State, r: ReqId, c: ConnId) returns (s': State)
    requires After(before) == Some(s) && r in s.reqs && s.reqs[r].pc == Waiting && s.reqs[r].id in s.pending
    requires c !in s.dials
    ensures var id := s.reqs[r].id;
            && From(s, [Take(c, id)] + [Hand(c)] + [Receive(r)]) == Some(s')
            && s' == State(s.pending - {id}, s.reqs[r := Req(id, Completed, Some(c))], s.dials[c := (id, Handed(r))])
  {
    EveryRunKeepsInv(before);
    var id := s.reqs[r].id;
    assert s.pending[id] == r;
    FromOne(s, Take(c, id));
    FromMore(s, [Take(c, id)], Hand(c));
    FromMore(s, [Take(c, id)] + [Hand(c)], Receive(r));
    s' := From(s, [Take(c, id)] + [Hand(c)] + [Receive(r)]).value;
  }

  /**
   A request under a fresh id whose Open gets through is paired with the dial-back that carries
   the id, from any state of any run.
   */
  lemma NewRequestsArePaired(before: seq<Act>, s: State, r: ReqId, id: StreamId, c: ConnId) returns (s': State)
    requires After(before) == Some(s) && Can(s, Mint(r, id)) && c !in s.dials
    ensures From(s, [Mint(r, id)] + [Open(r, true)] + [Take(c, id)] + [Hand(c)] + [Receive(r)]) == Some(s')
    ensures r in s'.reqs && s'.reqs[r] == Req(id, Completed, Some(c)) && id !in s'.pending
  {
    FromOne(s, Mint(r, id));
    FromMore(s, [Mint(r, id)], Open(r, true));
    FromMore(s, [Mint(r, id)] + [Open(r, true)], Take(c, id));
    FromMore(s, [Mint(r, id)] + [Open(r, true)] + [Take(c, id)], Hand(c));
    FromMore(s, [Mint(r, id)] + [Open(r, true)] + [Take(c, id)] + [Hand(c)], Receive(r));
    s' := From(s, [Mint(r, id)] + [Open(r, true)] + [Take(c, id)] + [Hand(c)] + [Receive(r)]).value;
  }

  /** `a` is the dial-back `c` finding no entry for its id, or the request no longer listening. */
  ghost predicate TurnsAway(s: State, a: Act, c: ConnId) {
    && Can(s, a)
    && ((a.Take? && a.conn == c && a.id !in s.pending)
        || (a.Hand? && a.conn == c && !s.reqs[s.dials[c].1.req].Listening()))
  }

  ghost predicate TurnedAway(acts: seq<Act>, c: ConnId) {
    && acts != []
    && var before := acts[..|acts| - 1];
       TurnedAway(before, c) || (After(before).Some? && TurnsAway(After(before).value, acts[|acts| - 1], c))
  }

  ghost predicate DroppedOk(s: State, acts: seq<Act>) {
    && (forall c :: c in s.dials && s.dials[c].1 == Dropped ==> TurnedAway(acts, c))
    && (forall c :: TurnedAway(acts, c) ==> c in s.dials && s.dials[c].1 == Dropped)
  }

  lemma StepKeepsDropped(s: State, acts: seq<Act>, a: Act)
    requires After(acts) == Some(s) && DroppedOk(s, acts) && Can(s, a)
    ensures DroppedOk(Step(s, a), acts + [a])
  {
    assert (acts + [a])[..|acts|] == acts;
    assert forall c :: TurnedAway(acts + [a], c) <==> TurnedAway(acts, c) || TurnsAway(s, a, c);
  }

  /**
   On every run a dial-back is dropped exactly if there was no entry for its id when it
   asked, or the request had stopped listening when it was handed over.
   */
  lemma {:induction false} DroppedIffTurnedAway(acts: seq<Act>)
    requires After(acts).Some?
    ensures DroppedOk(After(acts).value, acts)
  {
    if acts == [] {
      assert forall c :: !TurnedAway([], c);
    } else {
      var before, a := acts[..|acts| - 1], acts[|acts| - 1];
      DroppedIffTurnedAway(before);
      StepKeepsDropped(After(before).value, before, a);
      assert before + [a] == acts;
    }
  }

  /** The request's Open failed, or its wait timed out. */
  predicate GivesUp(a: Act, r: ReqId) {
    a == Open(r, false) || a == TimeOut(r)
  }

  predicate GaveUp(acts: seq<Act>, r: ReqId) {
    exists i :: 0 <= i < |acts| && GivesUp(acts[i], r)
  }

  ghost predicate EndsOk(s: State, acts: seq<Act>) {
    forall r :: r in s.reqs ==>
      match s.reqs[r].pc
      case Inserted => !GaveUp(acts, r)
      case Waiting => !GaveUp(acts, r)
      case Withdrawing => GaveUp(acts, r)
      case Completed => GaveUp(acts, r) || s.reqs[r].received.Some?
      case Abandoned => Abandon(r) in acts
  }

  ghost predicate Known(s: State, acts: seq<Act>) {
    forall i, r :: 0 <= i < |acts| && GivesUp(acts[i], r) ==> r in s.reqs
  }

  lemma StepKeepsEnds(s: State, acts: seq<Act>, a: Act)
    requires EndsOk(s, acts) && Known(s, acts) && Can(s, a)
    ensures EndsOk(Step(s, a), acts + [a]) && Known(Step(s, a), acts + [a])
  {
    var acts' := acts + [a];
    assert acts'[|acts|] == a && forall i :: 0 <= i < |acts| ==> acts'[i] == acts[i];
    forall r
      ensures GaveUp(acts', r) <==> GaveUp(acts, r) || GivesUp(a, r)
    {
      if GaveUp(acts, r) {
        var i :| 0 <= i < |acts| && GivesUp(acts[i], r);
        assert GivesUp(acts'[i], r);
      }
    }
  }

  /**
   On every run a request waits only after its Open got through; it is withdrawn exactly if
   that failed or the wait timed out; and one that completed without either has its stream.
   */
  lemma {:induction false} RequestsEndAsTheyShould(acts: seq<Act>)
    requires After(acts).Some?
    ensures EndsOk(After(acts).value, acts) && Known(After(acts).value, acts)
  {
    if acts != [] {
      var before, a := acts[..|acts| - 1], acts[|acts| - 1];
      RequestsEndAsTheyShould(before);
      StepKeepsEnds(After(before).value, before, a);
      assert before + [a] == acts;
    }
  }

  ghost predicate LeftBehind(s: State, r: ReqId, id: StreamId) {
    && r in s.reqs && s.reqs[r].pc == Abandoned && s.reqs[r].id == id
    && id in s.pending && s.pending[id] == r
  }

  lemma StaysLeftBehind(s: State, r: ReqId, id: StreamId, a: Act)
    requires LeftBehind(s, r, id) && IdsOk(s) && Can(s, a) && !(a.Take? && a.id == id)
    ensures LeftBehind(Step(s, a), r, id)
  {
  }

  /**
   The entry of a request whose client goes away while it waits is removed by
   nothing but a dial-back for it: without one it stays for good.
   */
  lemma AbandonedEntriesStay(before: seq<Act>, s: State, r: ReqId, acts: seq<Act>)
    requires After(before) == Some(s) && Can(s, Abandon(r)) && s.reqs[r].id in s.pending
    requires From(Step(s, Abandon(r)), acts).Some?
    requires forall a :: a in acts ==> !(a.Take? && a.id == s.reqs[r].id)
    ensures LeftBehind(From(Step(s, Abandon(r)), acts).value, r, s.reqs[r].id)
  {
    EveryRunKeepsInv(before);
    LeftBehindStays(Step(s, Abandon(r)), r, s.reqs[r].id, acts);
  }

  lemma {:induction false} LeftBehindStays(s: State, r: ReqId, id: StreamId, acts: seq<Act>)
    requires LeftBehind(s, r, id) && IdsOk(s) && From(s, acts).Some?
    requires forall a :: a in acts ==> !(a.Take? && a.id == id)
    ensures IdsOk(From(s, acts).value) && LeftBehind(From(s, acts).value, r, id)
  {
    if acts != [] {
      assert forall a :: a in acts[..|acts| - 1] ==> a in acts;
      LeftBehindStays(s, r, id, acts[..|acts| - 1]);
      var m := From(s, acts[..|acts| - 1]).value;
      StaysLeftBehind(m, r, id, acts[|acts| - 1]);
      StepKeepsIds(m, acts[|acts| - 1]);
    }
  }
}
