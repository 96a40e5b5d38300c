/**
 What a session's ring is over its whole life, on values: every byte the ring
 ever accepted, and how many of the last ones it still holds. Cursors are
 positions in that history. The circular buffer of `RingBuffer` is proved
 against these functions, and the streaming protocol is stated over them.
 */
module RingHistory {
  import opened Base

  datatype Window = Window(cap: nat, history: seq<byte>, kept: nat) {
    ghost predicate Valid() {
      kept <= cap && kept <= |history|
    }

    function Head(): nat {
      |history|
    }

    function Tail(): nat {
      SatSub(|history|, kept)
    }

    /** Holding everything the capacity allows: the documented `head - min(head, cap)`. */
    ghost predicate Full() {
      kept == Min(|history|, cap)
    }
  }

  /** One `push`, with the outcome of its fallible reservation. */
  datatype Push = Stored(data: seq<byte>) | Refused(data: seq<byte>)

  datatype ReadOutcome = Data(from: nat, data: seq<byte>) | Gap(earliest: nat) | Invalid

  function New(cap: nat): Window {
    Window(cap, [], 0)
  }

  /** Room is made before the reservation is tried, so a refused push still evicts. */
  function Apply(r: Window, p: Push): Window {
    match p
    case Stored(data) =>
      r.(history := r.history + data, kept := Min(r.kept + |data|, r.cap))
    case Refused(data) =>
      if data == [] then r else r.(kept := Min(r.kept, r.cap - Min(|data|, r.cap)))
  }

  function Run(r: Window, ps: seq<Push>): Window {
    if ps == [] then r else Apply(Run(r, ps[..|ps| - 1]), ps[|ps| - 1])
  }

  /** The bytes a run of pushes made part of the session's output. */
  function Accepted(ps: seq<Push>): seq<byte> {
    if ps == [] then []
    else
      var init := Accepted(ps[..|ps| - 1]);
      match ps[|ps| - 1] case Stored(data) => init + data case Refused(_) => init
  }

  function ReadAt(r: Window, from: nat, max: nat): ReadOutcome {
    if from > r.Head() then Invalid
    else if from < r.Tail() then Gap(r.Tail())
    else Data(from, r.history[from..if max == 0 then r.Head() else Min(r.Head(), from + max)])
  }

  // ---- every run ----

  lemma ApplyKeepsValid(r: Window, p: Push)
    requires r.Valid()
    ensures var r' := Apply(r, p);
            r'.Valid() && r'.cap == r.cap && r.history <= r'.history && r.Tail() <= r'.Tail()
  {
  }

  /**
   A push moves the tail no further than it must: a stored one to where its bytes and what
   was held fit the capacity, a refused one to where they would have.
   */
  lemma PushMovesTail(r: Window, data: seq<byte>)
    requires r.Valid()
    ensures Apply(r, Stored(data)).Tail() == Max(r.Tail(), SatSub(r.Head() + |data|, r.cap))
    ensures data != [] ==>
              Apply(r, Refused(data)).Tail() == Max(r.Tail(), SatSub(r.Head() + Min(|data|, r.cap), r.cap))
    ensures Apply(r, Stored(data)).history == r.history + data && Apply(r, Refused(data)).history == r.history
    ensures Apply(r, Refused([])) == r
  {
  }

  /**
   A cursor the ring covers is read from there on, up to the bound or the head; an older one is
   told of the oldest byte held, and one past the head is invalid.
   */
  lemma ReadAtMeans(r: Window, from: nat, max: nat)
    requires r.Valid()
    ensures match ReadAt(r, from, max)
            case Invalid => r.Head() < from
            case Gap(earliest) => from < earliest == r.Tail()
            case Data(at, data) =>
              && r.Tail() <= from == at <= r.Head() && data <= r.history[from..]
              && |data| == if max == 0 || r.Head() - from < max then r.Head() - from else max
  {
  }

  /** After any pushes, stored or refused, the history is what was stored, and head and tail never went back. */
  lemma {:induction false} RunInvariant(r: Window, ps: seq<Push>)
    requires r.Valid()
    ensures var r' := Run(r, ps);
            && r'.Valid()
            && r'.cap == r.cap
            && r'.history == r.history + Accepted(ps)
            && r.Head() <= r'.Head()
            && r.Tail() <= r'.Tail()
  {
    if ps != [] {
      RunInvariant(r, ps[..|ps| - 1]);
    }
  }

  /**
   A cursor means the same byte for ever: two reads of one cursor, any pushes
   apart, agree on every byte both return, unless the later one reports a gap.
   */
  lemma LaterReadsAgree(r: Window, ps: seq<Push>, from: nat, max: nat, later: nat)
    requires r.Valid()
    requires ReadAt(r, from, max).Data?
    ensures var r' := Run(r, ps);
            match ReadAt(r', from, later)
            case Gap(earliest) => from < earliest
            case Invalid => false
            case Data(_, data) =>
              forall i :: 0 <= i < Min(|data|, |ReadAt(r, from, max).data|) ==> data[i] == ReadAt(r, from, max).data[i]
  {
    RunInvariant(r, ps);
  }

  /** Without a refused push the ring always holds the last `min(head, cap)` bytes. */
  lemma {:induction false} UnrefusedRunsStayFull(r: Window, ps: seq<Push>)
    requires r.Valid() && r.Full()
    requires forall p :: p in ps ==> p.Stored?
    ensures Run(r, ps).Full()
  {
    if ps != [] {
      var init := ps[..|ps| - 1];
      assert forall p :: p in init ==> p in ps;
      UnrefusedRunsStayFull(r, init);
      RunInvariant(r, init);
    }
  }

  /** A refused push leaves a full ring full exactly when it had no need to evict. */
  lemma RefusedPushKeepsFullIff(r: Window, data: seq<byte>)
    requires r.Valid() && r.Full()
    ensures Apply(r, Refused(data)).Full() <==> (data == [] || r.kept + Min(|data|, r.cap) <= r.cap)
  {
  }

  /** The documented tail is not met after this run: the bytes before the refused push are gone, not just its own. */
  lemma RefusedPushLosesOlderBytes()
    ensures var r := Run(New(4), [Stored([1, 2, 3, 4]), Refused([5, 6])]);
            r.history == [1, 2, 3, 4] && r.Tail() == 2 && ReadAt(r, 0, 0) == Gap(2)
  {
    var ps := [Stored([1, 2, 3, 4]), Refused([5, 6])];
    assert ps[..1] == [Stored([1, 2, 3, 4])];
    assert ps[..1][..0] == [];
    assert Run(New(4), ps[..1]) == Apply(New(4), Stored([1, 2, 3, 4]));
  }
}
