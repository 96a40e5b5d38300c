/**
 A WebSocket presented as a byte stream. Binary frames carry the bytes, other
 frames are skipped, a close frame or the end of the socket reads as end of file,
 and every write is one binary frame.
 */
module ByteTransport {
  import opened Base

  /** What one poll of the socket's frame stream gives. Once these run out the socket has ended. */
  datatype Polled = NotReady | Binary(data: seq<byte>) | Ignore | Close | Broken

  datatype ReadResult = Pending | Ready(bytes: seq<byte>) | Failed
  datatype WriteResult = WritePending | Wrote(n: nat) | WriteFailed

  /** Frames to come, and the part of the last binary frame not yet handed out. */
  datatype Pipe = Pipe(inner: seq<Polled>, unread: seq<byte>)

  function Read(p: Pipe, room: nat): (ReadResult, Pipe)
    decreases |p.inner|
  {
    if p.unread != [] then
      var n := Min(room, |p.unread|);
      (Ready(p.unread[..n]), p.(unread := p.unread[n..]))
    else if p.inner == [] then (Ready([]), p)
    else
      var rest := p.inner[1..];
      match p.inner[0]
      case NotReady => (Pending, Pipe(rest, []))
      case Close => (Ready([]), Pipe(rest, []))
      case Broken => (Failed, Pipe(rest, []))
      case Ignore => Read(Pipe(rest, []), room)
      case Binary(data) =>
        if data == [] then Read(Pipe(rest, []), room)
        else (Ready(data[..Min(room, |data|)]), Pipe(rest, data[Min(room, |data|)..]))
  }

  class WsByteStream {
    var inner: seq<Polled>
    var readRem: seq<byte>
    var readPos: nat
    /** Binary frames given to the socket's sink. */
    var sent: seq<seq<byte>>

    constructor (inner: seq<Polled>)
      ensures Valid() && View() == Pipe(inner, []) && sent == []
    {
      this.inner, readRem, readPos, sent := inner, [], 0, [];
    }

    predicate Valid()
      reads this
    {
      readPos <= |readRem|
    }

    function View(): Pipe
      requires Valid()
      reads this
    {
      Pipe(inner, readRem[readPos..])
    }

    method PollRead(room: nat) returns (r: ReadResult)
      requires Valid()
      modifies this`inner, this`readRem, this`readPos
      ensures Valid() && (r, View()) == Read(old(View()), room)
    {
      while true
        invariant Valid() && Read(View(), room) == Read(old(View()), room)
        decreases |inner|, |readRem| - readPos
      {
        if readPos < |readRem| {
          var n := Min(room, |readRem| - readPos);
          r := Ready(readRem[readPos..readPos + n]);
          assert readRem[readPos..][n..] == readRem[readPos + n..];
          assert readRem[readPos..][..n] == readRem[readPos..readPos + n];
          readPos := readPos + n;
          return;
        }
        if inner == [] {
          return Ready([]);
        }
        var msg := inner[0];
        inner := inner[1..];
        match msg {
          case NotReady => return Pending;
          case Binary(data) =>
            if data != [] {
              readRem := data;
              readPos := 0;
            }
          case Ignore =>
          case Close => return Ready([]);
          case Broken => return Failed;
        }
      }
    }

    /** `ready` is the sink's answer: none yet, or whether it can take a frame; `ok` whether it took it. */
    method PollWrite(buf: seq<byte>, ready: Option<bool>, ok: bool) returns (r: WriteResult)
      modifies this`sent
      ensures r == (if ready == None then WritePending
                     else if ready == Some(false) || !ok then WriteFailed else Wrote(|buf|))
      ensures sent == if r == Wrote(|buf|) then old(sent) + [buf] else old(sent)
    {
      if ready == None {
        return WritePending;
      }
      if !ready.value {
        return WriteFailed;
      }
      if !ok {
        return WriteFailed;
      }
      sent := sent + [buf];
      r := Wrote(|buf|);
    }
  }

  // ---- what a reader gets ----

  /** The binary payloads before the first close or failure. */
  function Payload(inner: seq<Polled>): seq<byte> {
    if inner == [] then []
    else
      match inner[0]
      case Close => []
      case Broken => []
      case Binary(data) => data + Payload(inner[1..])
      case _ => Payload(inner[1..])
  }

  /** All a reader of the pipe can still get. */
  function Remaining(p: Pipe): seq<byte> {
    p.unread + Payload(p.inner)
  }

  /** Nothing but skipped frames before a close frame or the end of the socket. */
  predicate AtEnd(p: Pipe) {
    p.unread == [] && EndComes(p.inner)
  }

  predicate EndComes(inner: seq<Polled>) {
    inner == [] || inner[0] == Close || ((inner[0] == Ignore || inner[0] == Binary([])) && EndComes(inner[1..]))
  }

  /**
   A read takes its bytes off the front of what remains. With room in the buffer
   it comes back empty exactly at the end; empty, ping and text frames never look like one.
   */
  lemma {:induction false} ReadMeans(p: Pipe, room: nat)
    ensures var (r, p') := Read(p, room);
            && (r.Ready? && !AtEnd(p) ==> r.bytes + Remaining(p') == Remaining(p) && |r.bytes| <= room)
            && (r == Pending ==> Remaining(p') == Remaining(p))
            && (room > 0 ==> (r == Ready([]) <==> AtEnd(p)))
            && (AtEnd(p) ==> r == Ready([]) && Remaining(p) == [])
            && (r == Failed ==> Remaining(p) == [])
    decreases |p.inner|
  {
    if p.unread != [] {
      var n := Min(room, |p.unread|);
      assert p.unread == p.unread[..n] + p.unread[n..];
    } else if p.inner != [] {
      var rest := p.inner[1..];
      match p.inner[0] {
        case Binary(data) =>
          if data == [] {
            ReadMeans(Pipe(rest, []), room);
          } else {
            var n := Min(room, |data|);
            assert data == data[..n] + data[n..];
          }
        case Ignore => ReadMeans(Pipe(rest, []), room);
        case _ =>
      }
    }
  }

  /** How many frames a read passes over in silence: pings and texts, and empty binary frames. */
  function Skipped(inner: seq<Polled>): (n: nat)
    ensures n <= |inner|
    ensures forall i :: 0 <= i < n ==> inner[i] == Ignore || inner[i] == Binary([])
    ensures n < |inner| ==> inner[n] != Ignore && inner[n] != Binary([])
  {
    if inner == [] || (inner[0] != Ignore && inner[0] != Binary([])) then 0 else 1 + Skipped(inner[1..])
  }

  lemma {:induction false} ReadSkips(p: Pipe, room: nat)
    requires p.unread == []
    ensures Read(p, room) == Read(Pipe(p.inner[Skipped(p.inner)..], []), room)
    decreases |p.inner|
  {
    if p.inner != [] && (p.inner[0] == Ignore || p.inner[0] == Binary([])) {
      ReadSkips(Pipe(p.inner[1..], []), room);
      assert p.inner[1..][Skipped(p.inner[1..])..] == p.inner[Skipped(p.inner)..];
    } else {
      assert p.inner[0..] == p.inner;
    }
  }

  /**
   Exactly what a read answers: the front of what is unread, as much as there is room for, or
   else what the first frame that is not skipped says, and that frame is then gone.
   */
  lemma ReadAnswers(p: Pipe, room: nat)
    ensures var (r, p') := Read(p, room);
            if p.unread != [] then
              r == Ready(p.unread[..Min(room, |p.unread|)]) && p' == p.(unread := p.unread[|r.bytes|..])
            else
              var n := Skipped(p.inner);
              if n == |p.inner| then r == Ready([]) && p' == Pipe([], [])
              else
                && p'.inner == p.inner[n + 1..]
                && match p.inner[n]
                   case NotReady => r == Pending && p'.unread == []
                   case Broken => r == Failed && p'.unread == []
                   case Close => r == Ready([]) && p'.unread == []
                   case Binary(data) =>
                     r == Ready(data[..Min(room, |data|)]) && p'.unread == data[Min(room, |data|)..]
                   case Ignore => false
  {
    if p.unread == [] {
      ReadSkips(p, room);
      var n := Skipped(p.inner);
      if n < |p.inner| {
        assert p.inner[n..][1..] == p.inner[n + 1..] && p.inner[n..][0] == p.inner[n];
      } else {
        assert p.inner[n..] == [];
      }
    }
  }

  /**
   What a reader calling with these buffer sizes gets before the first close, end
   or failure, polling again when nothing is ready. By `ReadMeans` a reader whose buffer has
   room is told of that moment by an empty read.
   */
  function ReadAll(p: Pipe, rooms: seq<nat>): (seq<byte>, Pipe, ReadResult)
    decreases |rooms|
  {
    if rooms == [] then ([], p, Pending)
    else
      var (r, p') := Read(p, rooms[0]);
      if r == Failed || AtEnd(p) then ([], p', r)
      else
        var (bytes, p'', last) := ReadAll(p', rooms[1..]);
        ((if r.Ready? then r.bytes else []) + bytes, p'', last)
  }

  /**
   Conservation: for any frames and buffer sizes the bytes read are a prefix of the
   binary payloads, what was read and what remains are what there was, and when the end
   or a failure is met every byte sent before it has been read.
   */
  lemma {:induction false} ReadsConserve(p: Pipe, rooms: seq<nat>)
    ensures var (bytes, p', last) := ReadAll(p, rooms);
            && bytes <= Remaining(p)
            && (last == Pending ==> bytes + Remaining(p') == Remaining(p))
            && (last != Pending ==> bytes == Remaining(p))
    decreases |rooms|
  {
    if rooms != [] {
      ReadMeans(p, rooms[0]);
      var (r, p') := Read(p, rooms[0]);
      if r != Failed && !AtEnd(p) {
        ReadsConserve(p', rooms[1..]);
        var (bytes, p'', last) := ReadAll(p', rooms[1..]);
        Regroup(if r.Ready? then r.bytes else [], bytes, Remaining(p''));
      }
    }
  }

  /** A read into an empty buffer can consume a close unseen: the next read then returns what came after it. */
  lemma EmptyBufferHidesAClose()
    ensures var (r, p) := Read(Pipe([Close, Binary([7])], []), 0);
            r == Ready([]) && Read(p, 8).0 == Ready([7])
  {
    assert [Close, Binary([7])][1..] == [Binary([7])];
  }

  // ---- both ends ----

  /** The frames of a healthy socket carrying `writes`, with any other traffic between them. */
  predicate Carries(inner: seq<Polled>, writes: seq<seq<byte>>) {
    if inner == [] then writes == []
    else
      match inner[0]
      case Binary(data) => if writes != [] && data == writes[0] then Carries(inner[1..], writes[1..]) else false
      case NotReady => Carries(inner[1..], writes)
      case Ignore => Carries(inner[1..], writes)
      case Close => writes == []
      case Broken => false
  }

  lemma {:induction false} CarriedPayload(inner: seq<Polled>, writes: seq<seq<byte>>)
    requires Carries(inner, writes)
    ensures Payload(inner) == Flatten(writes)
  {
    if inner != [] {
      match inner[0] {
        case Binary(data) => CarriedPayload(inner[1..], writes[1..]);
        case NotReady => CarriedPayload(inner[1..], writes);
        case Ignore => CarriedPayload(inner[1..], writes);
        case _ =>
      }
    }
  }

  /**
   Whatever was written at one end, however the reads at the other are sized, arrives byte for byte
   in order, all of it by the end.
   */
  lemma WritesAreReadBack(writes: seq<seq<byte>>, inner: seq<Polled>, rooms: seq<nat>)
    requires Carries(inner, writes)
    ensures var (bytes, p, last) := ReadAll(Pipe(inner, []), rooms);
            && bytes <= Flatten(writes)
            && bytes + (if last == Pending then Remaining(p) else []) == Flatten(writes)
  {
    CarriedPayload(inner, writes);
    ReadsConserve(Pipe(inner, []), rooms);
  }
}
