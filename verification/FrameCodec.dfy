/**
 Wire framing: a 32-bit big-endian length, a tag byte, a 16-bit big-endian
 ordinal and the message body. The length counts everything after itself.
 */
module FrameCodec {
  import opened Base

  const MAX_FRAME_BYTES: nat := 16 * 1024 * 1024
  const TAG_FLATBUFFERS: byte := 0

  newtype u16 = n: int | 0 <= n < 0x1_0000

  datatype Message = Message(ordinal: u16, body: seq<byte>)

  /** One read: a frame, the peer gone, or why not. */
  datatype Incoming = Frame(message: Message) | Eof | TooLarge | Malformed | Io

  // ---- big-endian numbers ----

  function Limit(width: nat): (r: nat)
    ensures r > 0
  {
    if width == 0 then 1 else 256 * Limit(width - 1)
  }

  /** The low `width` bytes of a number, highest first. */
  function BigEndian(n: nat, width: nat): (s: seq<byte>)
    ensures |s| == width
  {
    if width == 0 then [] else BigEndian(n / 256, width - 1) + [(n % 256) as byte]
  }

  function FromBigEndian(s: seq<byte>): (n: nat)
    ensures n < Limit(|s|)
  {
    if s == [] then 0 else 256 * FromBigEndian(s[..|s| - 1]) + s[|s| - 1] as nat
  }

  lemma {:induction false} BigEndianRoundTrip(n: nat, width: nat)
    ensures FromBigEndian(BigEndian(n, width)) == n % Limit(width)
  {
    if width > 0 {
      BigEndianRoundTrip(n / 256, width - 1);
      var s := BigEndian(n, width);
      assert s[..width - 1] == BigEndian(n / 256, width - 1);
      DigitsOf(n, Limit(width - 1));
    }
  }

  lemma DigitsOf(n: nat, m: nat)
    requires m > 0
    ensures n % (256 * m) == 256 * (n / 256 % m) + n % 256
  {
    var high, low := n / 256 / m, n / 256 % m;
    var r := 256 * low + n % 256;
    assert n / 256 == high * m + low;
    assert n == 256 * m * high + r;
    assert r < 256 * m;
    Remainder(n, 256 * m, high, r);
  }

  lemma Remainder(n: nat, d: nat, q: nat, r: nat)
    requires d > 0 && r < d && n == d * q + r
    ensures n % d == r
  {
    var k := n / d - q;
    assert d * k == r - n % d;
    MultipleIsFar(d, k);
  }

  lemma MultipleIsFar(d: nat, k: int)
    ensures k > 0 ==> d * k >= d
    ensures k < 0 ==> d * k + d <= 0
  {
  }

  lemma Widths()
    ensures Limit(2) == 0x1_0000 && Limit(4) == 0x1_0000_0000
  {
    assert Limit(1) == 256 * Limit(0) && Limit(3) == 256 * Limit(2);
  }

  function FromBe16(s: seq<byte>): u16
    requires |s| == 2
  {
    Widths();
    FromBigEndian(s) as u16
  }

  // ---- the codec on values ----

  /** The length field is the length cast to 32 bits, its low four bytes. */
  function Encode(m: Message): seq<byte> {
    BigEndian(|m.body| + 3, 4) + [TAG_FLATBUFFERS] + BigEndian(m.ordinal as nat, 2) + m.body
  }

  function EncodeAll(ms: seq<Message>): seq<byte> {
    if ms == [] then [] else Encode(ms[0]) + EncodeAll(ms[1..])
  }

  /**
   The first read of a stream that holds `s` and then closes, or fails if
   `broken`, with how many bytes are left. Fewer than four bytes read as a closed peer.
   */
  function DecodeOne(s: seq<byte>, broken: bool): (r: (Incoming, seq<byte>))
    ensures r.0.Frame? ==> |r.1| + 7 <= |s|
  {
    if |s| < 4 then (if broken then Io else Eof, [])
    else
      var len := FromBigEndian(s[..4]);
      if len > MAX_FRAME_BYTES then (TooLarge, s[4..])
      else if len < 3 then (Malformed, s[4..])
      else if |s| < 7 then (Io, [])
      else if s[4] != TAG_FLATBUFFERS then (Malformed, s[7..])
      else if |s| < 4 + len then (Io, [])
      else (Frame(Message(FromBe16(s[5..7]), s[7..4 + len])), s[4 + len..])
  }

  /** Every frame read until the first read that is not one, and that read. */
  function DecodeAll(s: seq<byte>, broken: bool): (seq<Message>, Incoming)
    decreases |s|
  {
    var (r, rest) := DecodeOne(s, broken);
    if r.Frame? then
      var (ms, end) := DecodeAll(rest, broken);
      ([r.message] + ms, end)
    else ([], r)
  }

  // ---- the code, step by step ----

  class Reader {
    const data: seq<byte>
    const broken: bool
    var pos: nat

    constructor (data: seq<byte>, broken: bool)
      ensures pos == 0 && this.data == data && this.broken == broken
    {
      this.data, this.broken, pos := data, broken, 0;
    }

    ghost predicate Valid()
      reads this
    {
      pos <= |data|
    }

    /** `read_exact`: all `n` bytes, or none and the stream used up. */
    method ReadExact(n: nat) returns (bytes: Option<seq<byte>>)
      requires Valid()
      modifies this
      ensures Valid()
      ensures if old(pos) + n <= |data| then bytes == Some(data[old(pos)..old(pos) + n]) && pos == old(pos) + n
              else bytes == None && pos == |data|
    {
      if pos + n <= |data| {
        bytes := Some(data[pos..pos + n]);
        pos := pos + n;
      } else {
        bytes := None;
        pos := |data|;
      }
    }

    method ReadFrame() returns (r: Incoming)
      requires Valid()
      modifies this
      ensures Valid() && (r, data[pos..]) == DecodeOne(data[old(pos)..], broken)
    {
      ghost var s := data[pos..];
      var lenBuf := ReadExact(4);
      if lenBuf == None {
        assert data[pos..] == [];
        return if broken then Io else Eof;
      }
      assert lenBuf.value == s[..4] && data[pos..] == s[4..];
      var len := FromBigEndian(lenBuf.value);
      if len > MAX_FRAME_BYTES {
        return TooLarge;
      }
      if len < 3 {
        return Malformed;
      }
      var head := ReadExact(3);
      if head == None {
        assert data[pos..] == [];
        return Io;
      }
      assert head.value == s[4..7] && data[pos..] == s[7..];
      if head.value[0] != TAG_FLATBUFFERS {
        return Malformed;
      }
      var ordinal := FromBe16(head.value[1..]);
      var body: Option<seq<byte>> := Some([]);
      if len > 3 {
        body := ReadExact(len - 3);
      }
      if body == None {
        assert data[pos..] == [];
        return Io;
      }
      assert body.value == s[7..4 + len] && data[pos..] == s[4 + len..];
      r := Frame(Message(ordinal, body.value));
    }
  }

  method FrameBody(ordinal: u16, body: seq<byte>) returns (out: seq<byte>)
    ensures out == Encode(Message(ordinal, body))
  {
    var len := |body| + 3;
    out := BigEndian(len, 4);
    out := out + [TAG_FLATBUFFERS];
    out := out + BigEndian(ordinal as nat, 2);
    out := out + body;
  }

  // ---- the format, byte by byte ----

  lemma BigEndianBytes(n: nat)
    ensures BigEndian(n, 2) == [(n / 256 % 256) as byte, (n % 256) as byte]
    ensures BigEndian(n, 4) == [(n / 0x100_0000 % 256) as byte, (n / 0x1_0000 % 256) as byte] + BigEndian(n, 2)
  {
    assert n / 256 / 256 == n / 0x1_0000 && n / 256 / 256 / 256 == n / 0x100_0000;
    assert BigEndian(n / 256, 1) == BigEndian(n / 256 / 256, 0) + [(n / 256 % 256) as byte];
    assert BigEndian(n / 0x1_0000, 1) == BigEndian(n / 0x100_0000, 0) + [(n / 0x1_0000 % 256) as byte];
    assert BigEndian(n / 0x100_0000, 1) == [(n / 0x100_0000 % 256) as byte];
    assert BigEndian(n / 0x1_0000, 2) == BigEndian(n / 0x100_0000, 1) + [(n / 0x1_0000 % 256) as byte];
    assert BigEndian(n / 256, 3) == BigEndian(n / 0x1_0000, 2) + [(n / 256 % 256) as byte];
  }

  lemma FromFourBytes(s: seq<byte>)
    requires |s| == 4
    ensures FromBigEndian(s)
            == 0x100_0000 * s[0] as nat + 0x1_0000 * s[1] as nat + 256 * s[2] as nat + s[3] as nat
  {
    assert s[..3][..2] == s[..2] && s[..2][..1] == s[..1] && s[..1][..0] == [];
    assert FromBigEndian(s[..1]) == s[0] as nat;
    assert FromBigEndian(s[..2]) == 256 * FromBigEndian(s[..1]) + s[1] as nat;
    assert FromBigEndian(s[..3]) == 256 * FromBigEndian(s[..2]) + s[2] as nat;
  }

  lemma FromTwoBytes(s: seq<byte>)
    requires |s| == 2
    ensures FromBigEndian(s) == 256 * s[0] as nat + s[1] as nat
  {
    assert FromBigEndian(s[..1]) == 256 * FromBigEndian(s[..1][..0]) + s[0] as nat;
  }

  /** An envelope on the wire: the length of what follows, the tag, the ordinal, the body. */
  lemma EncodedBytes(m: Message)
    ensures var s, len, n := Encode(m), |m.body| + 3, m.ordinal as nat;
            && |s| == 7 + |m.body|
            && s[0] as nat == len / 0x100_0000 % 256 && s[1] as nat == len / 0x1_0000 % 256
            && s[2] as nat == len / 256 % 256 && s[3] as nat == len % 256
            && s[4] == 0
            && s[5] as nat == n / 256 && s[6] as nat == n % 256
            && s[7..] == m.body
  {
    BigEndianBytes(|m.body| + 3);
    BigEndianBytes(m.ordinal as nat);
  }

  /** What the four bytes of a length field say. */
  function Announced(s: seq<byte>): nat
    requires |s| >= 4
  {
    0x100_0000 * s[0] as nat + 0x1_0000 * s[1] as nat + 256 * s[2] as nat + s[3] as nat
  }

  /**
   What a read of any bytes comes to, told by the bytes: a length over the limit is refused
   before anything more is read, one under three and a reserved tag are malformed, a frame
   is its ordinal and just the bytes announced, and too few bytes are a closed peer inside
   the length field and an error after it.
   */
  lemma DecodeMeans(s: seq<byte>, broken: bool)
    ensures var (r, rest) := DecodeOne(s, broken);
            if |s| < 4 then r == if broken then Io else Eof
            else
              var len := Announced(s);
              && (r == TooLarge <==> MAX_FRAME_BYTES < len)
              && (r == Malformed <==> len < 3 || (len <= MAX_FRAME_BYTES && 7 <= |s| && s[4] != 0))
              && (r == Io <==> 3 <= len <= MAX_FRAME_BYTES && (|s| < 7 || (|s| < 4 + len && s[4] == 0)))
              && (r.Frame? <==> 3 <= len <= MAX_FRAME_BYTES && 4 + len <= |s| && s[4] == 0)
              && (r.Frame? ==>
                    && r.message.ordinal as nat == 256 * s[5] as nat + s[6] as nat
                    && r.message.body == s[7..4 + len] && rest == s[4 + len..])
  {
    if |s| >= 4 {
      FromFourBytes(s[..4]);
      if |s| >= 7 {
        FromTwoBytes(s[5..7]);
      }
    }
  }

  // ---- round trips ----

  predicate Fits(m: Message) {
    |m.body| + 3 <= MAX_FRAME_BYTES
  }

  lemma EncodedParts(m: Message, rest: seq<byte>)
    ensures var s := Encode(m) + rest;
            && |Encode(m)| == 7 + |m.body|
            && s[..4] == BigEndian(|m.body| + 3, 4)
            && s[4] == TAG_FLATBUFFERS && s[5..7] == BigEndian(m.ordinal as nat, 2)
            && s[7..7 + |m.body|] == m.body && s[7 + |m.body|..] == rest
  {
  }

  lemma EncodedFields(m: Message, rest: seq<byte>)
    ensures var s := Encode(m) + rest;
            && |Encode(m)| == 7 + |m.body|
            && FromBigEndian(s[..4]) == (|m.body| + 3) % 0x1_0000_0000
            && s[4] == TAG_FLATBUFFERS && FromBe16(s[5..7]) == m.ordinal
            && s[7..7 + |m.body|] == m.body && s[7 + |m.body|..] == rest
  {
    EncodedParts(m, rest);
    Widths();
    BigEndianRoundTrip(|m.body| + 3, 4);
    BigEndianRoundTrip(m.ordinal as nat, 2);
  }

  lemma DecodeWhole(s: seq<byte>, len: nat, broken: bool)
    requires 3 <= len <= MAX_FRAME_BYTES && 4 + len <= |s|
    requires FromBigEndian(s[..4]) == len && s[4] == TAG_FLATBUFFERS
    ensures DecodeOne(s, broken) == (Frame(Message(FromBe16(s[5..7]), s[7..4 + len])), s[4 + len..])
  {
  }

  lemma DecodeEncode(m: Message, rest: seq<byte>, broken: bool)
    requires Fits(m)
    ensures DecodeOne(Encode(m) + rest, broken) == (Frame(m), rest)
  {
    EncodedFields(m, rest);
    DecodeWhole(Encode(m) + rest, |m.body| + 3, broken);
  }

  lemma DecodeAllCons(m: Message, rest: seq<byte>, broken: bool)
    requires Fits(m)
    ensures var (ms, end) := DecodeAll(rest, broken);
            DecodeAll(Encode(m) + rest, broken) == ([m] + ms, end)
  {
    DecodeEncode(m, rest, broken);
  }

  /** A single frame survives the trip exactly when it is within the limit: a longer one is refused or misread. */
  lemma RoundTripsIffFits(m: Message, rest: seq<byte>, broken: bool)
    ensures DecodeOne(Encode(m) + rest, broken).0 == Frame(m) <==> Fits(m)
  {
    if Fits(m) {
      DecodeEncode(m, rest, broken);
    } else {
      var n := (|m.body| + 3) % 0x1_0000_0000;
      EncodedFields(m, rest);
      var s := Encode(m) + rest;
      if 3 <= n <= MAX_FRAME_BYTES {
        assert |s[7..4 + n]| == n - 3 < |m.body|;
      }
    }
  }

  /** The frames of `ms` that lie wholly within the first `n` bytes of their encoding. */
  function WholeFrames(ms: seq<Message>, n: nat): (k: nat)
    ensures k <= |ms|
  {
    if ms == [] || n < |Encode(ms[0])| then 0 else 1 + WholeFrames(ms[1..], n - |Encode(ms[0])|)
  }

  lemma DecodePart(s: seq<byte>, len: nat, broken: bool)
    requires |s| < 4 + len && 3 <= len <= MAX_FRAME_BYTES
    requires |s| >= 4 ==> FromBigEndian(s[..4]) == len
    requires |s| >= 7 ==> s[4] == TAG_FLATBUFFERS
    ensures DecodeOne(s, broken).0 == if |s| < 4 && !broken then Eof else Io
  {
  }

  lemma DecodeFragment(m: Message, n: nat, broken: bool)
    requires Fits(m) && n < |Encode(m)|
    ensures DecodeOne(Encode(m)[..n], broken).0 == if n < 4 && !broken then Eof else Io
  {
    EncodedFields(m, []);
    assert Encode(m) + [] == Encode(m);
    var s := Encode(m)[..n];
    assert n >= 4 ==> s[..4] == Encode(m)[..4];
    DecodePart(s, |m.body| + 3, broken);
  }

  lemma CutWithinFirst(ms: seq<Message>, n: nat, broken: bool)
    requires ms != [] && Fits(ms[0]) && n < |Encode(ms[0])|
    ensures DecodeAll(EncodeAll(ms)[..n], broken) == ([], if n < 4 && !broken then Eof else Io)
  {
    assert EncodeAll(ms)[..n] == Encode(ms[0])[..n];
    DecodeFragment(ms[0], n, broken);
  }

  lemma CutAfterFirst(ms: seq<Message>, n: nat, broken: bool)
    requires ms != [] && Fits(ms[0]) && |Encode(ms[0])| <= n <= |EncodeAll(ms)|
    ensures var (rest, end) := DecodeAll(EncodeAll(ms[1..])[..n - |Encode(ms[0])|], broken);
            DecodeAll(EncodeAll(ms)[..n], broken) == ([ms[0]] + rest, end)
  {
    var e, rest := Encode(ms[0]), EncodeAll(ms[1..]);
    assert (e + rest)[..n] == e + rest[..n - |e|];
    DecodeAllCons(ms[0], rest[..n - |e|], broken);
  }

  lemma EncodeAllPrefix(ms: seq<Message>, k: nat)
    requires k < |ms|
    ensures ms[..k + 1] == [ms[0]] + ms[1..][..k]
    ensures EncodeAll(ms[..k + 1]) == Encode(ms[0]) + EncodeAll(ms[1..][..k])
  {
    assert ms[..k + 1][1..] == ms[1..][..k];
  }

  /**
   A stream of frames cut anywhere decodes to exactly the frames that arrived
   whole, then a closed peer or a transport error; never a wrong frame. Up to
   three bytes of a next frame still read as a closed peer.
   */
  lemma {:induction false} TruncatedStreamDecodes(ms: seq<Message>, n: nat, broken: bool)
    requires n <= |EncodeAll(ms)| && forall i :: 0 <= i < |ms| ==> Fits(ms[i])
    ensures var k := WholeFrames(ms, n);
            && |EncodeAll(ms[..k])| <= n
            && DecodeAll(EncodeAll(ms)[..n], broken)
               == (ms[..k], if n - |EncodeAll(ms[..k])| < 4 && !broken then Eof else Io)
    decreases |ms|
  {
    if ms == [] {
      assert EncodeAll(ms)[..n] == [];
    } else if n < |Encode(ms[0])| {
      CutWithinFirst(ms, n, broken);
      assert ms[..0] == [];
    } else {
      var m := n - |Encode(ms[0])|;
      TruncatedStreamDecodes(ms[1..], m, broken);
      CutAfterFirst(ms, n, broken);
      EncodeAllPrefix(ms, WholeFrames(ms[1..], m));
    }
  }

  lemma {:induction false} AllFramesAreWhole(ms: seq<Message>)
    ensures WholeFrames(ms, |EncodeAll(ms)|) == |ms|
  {
    if ms != [] {
      AllFramesAreWhole(ms[1..]);
    }
  }

  /** Decoding what was encoded gives back the messages, then a closed peer. */
  lemma StreamRoundTrips(ms: seq<Message>)
    requires forall i :: 0 <= i < |ms| ==> Fits(ms[i])
    ensures DecodeAll(EncodeAll(ms), false) == (ms, Eof)
  {
    var n := |EncodeAll(ms)|;
    AllFramesAreWhole(ms);
    TruncatedStreamDecodes(ms, n, false);
    assert EncodeAll(ms)[..n] == EncodeAll(ms);
    assert ms[..|ms|] == ms;
  }
}
