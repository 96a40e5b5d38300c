/**
 The per-session byte ring as the holder keeps it: a circular backing store that
 grows on demand, read as two segments, with a saturating 64-bit head cursor.
 */
module RingBuffer {
  import opened Base
  import H = RingHistory

  /** `slice.get(lo..hi)`: absent rather than a panic when out of range. */
  function GetRange(s: seq<byte>, lo: nat, hi: nat): Option<seq<byte>> {
    if lo <= hi <= |s| then Some(s[lo..hi]) else None
  }

  /** Copy `n` bytes from `skip`, out of the two segments of a circular buffer. */
  method CopyRange(a: seq<byte>, b: seq<byte>, skip: nat, n: nat) returns (out: seq<byte>)
    ensures skip + n <= |a| + |b| ==> out == (a + b)[skip..skip + n]
    ensures skip + n > |a| + |b| ==> out == if skip < |a| then a[skip..] else []
  {
    out := [];
    if skip < |a| {
      var takeA := Min(n, SatSub(|a|, skip));
      var s := GetRange(a, skip, skip + takeA);
      if s.Some? {
        out := out + s.value;
      }
      var rem := SatSub(n, takeA);
      if rem > 0 {
        s := GetRange(b, 0, rem);
        if s.Some? {
          out := out + s.value;
        }
      }
    } else {
      var bSkip := SatSub(skip, |a|);
      var s := GetRange(b, bSkip, bSkip + n);
      if s.Some? {
        out := out + s.value;
      }
    }
  }

  lemma SliceOfSuffix(h: seq<byte>, n: nat, skip: nat, want: nat)
    requires n <= |h| && skip + want <= n
    ensures h[|h| - n..][skip..skip + want] == h[|h| - n + skip..|h| - n + skip + want]
  {
  }

  lemma ShorterSuffix(h: seq<byte>, n: nat, drop: nat)
    requires drop <= n <= |h|
    ensures h[|h| - n..][drop..] == h[|h| - (n - drop)..]
  {
  }

  lemma LongerSuffix(h: seq<byte>, n: nat, data: seq<byte>, skip: nat)
    requires n <= |h| && skip <= |data|
    requires n == 0 || skip == 0
    ensures h[|h| - n..] + data[skip..] == (h + data)[|h + data| - (n + |data| - skip)..]
  {
  }

  /** What the two outcomes of a push leave, by way of the room made first. */
  lemma PushedLength(r: H.Window, data: seq<byte>)
    requires r.Valid() && r.cap > 0 && data != []
    ensures var keep := Min(|data|, r.cap);
            var room := Min(r.kept, r.cap - keep);
            && H.Apply(r, H.Refused(data)) == r.(kept := room)
            && H.Apply(r, H.Stored(data)) == r.(history := r.history + data, kept := room + keep)
  {
  }

  /** A read within the ring is a slice of the history as long as what is held from there allows. */
  lemma ReadWithin(r: H.Window, from: nat, max: nat)
    requires r.Valid() && r.Tail() <= from <= r.Head()
    ensures var avail := r.Head() - from;
            H.ReadAt(r, from, max) == H.Data(from, r.history[from..from + if max == 0 then avail else Min(avail, max)])
  {
  }

  /** Where the byte `i` after the oldest lies in a circular store. */
  function Slot(start: nat, i: nat, size: nat): (at: nat)
    requires start < size && i < size
    ensures at < size
  {
    if start + i < size then start + i else start + i - size
  }

  class Ring {
    const cap: nat
    // The circular backing store: `len` bytes from `start`, wrapping.
    var buf: array<byte>
    var start: nat
    var len: nat
    var head: nat
    // The bytes held, and all that were ever accepted.
    ghost var contents: seq<byte>
    ghost var history: seq<byte>

    ghost predicate Stored()
      reads this, buf
    {
      && len == |contents|
      && len <= buf.Length
      && (start < buf.Length || (start == 0 && buf.Length == 0))
      && forall i :: 0 <= i < len ==> buf[Slot(start, i, buf.Length)] == contents[i]
    }

    ghost predicate Valid()
      reads this, buf
    {
      && Stored()
      && len <= cap
      && len <= |history|
      && head == Min(|history|, U64_MAX)
      && contents == history[|history| - len..]
    }

    /** The ring as a value. */
    ghost function View(): H.Window
      reads this
    {
      H.Window(cap, history, len)
    }

    constructor (cap: nat)
      ensures Valid() && View() == H.New(cap) && fresh(buf)
    {
      this.cap := cap;
      buf := new byte[0];
      start, len, head, contents, history := 0, 0, 0, [], [];
    }

    method Tail() returns (t: nat)
      requires Valid()
      ensures |history| <= U64_MAX ==> t == View().Tail()
    {
      t := SatSub(head, len);
    }

    method AsSlices() returns (a: seq<byte>, b: seq<byte>)
      requires Stored()
      ensures a + b == contents
    {
      if start + len <= buf.Length {
        a, b := buf[start..start + len], [];
      } else {
        a, b := buf[start..], buf[..start + len - buf.Length];
      }
      forall i | 0 <= i < len
        ensures (a + b)[i] == contents[i]
      {
        assert (a + b)[i] == buf[Slot(start, i, buf.Length)];
      }
    }

    /** Drop the oldest `n` bytes, or all of them when fewer are held. */
    method DropFront(n: nat)
      requires Stored()
      modifies this`start, this`len, this`contents
      ensures Stored()
      ensures contents == old(contents)[Min(n, old(len))..]
    {
      var k := Min(n, len);
      if k < buf.Length {
        start := Slot(start, k, buf.Length);
      } else {
        assert len == k;
      }
      len := len - k;
      contents := contents[k..];
      forall i | 0 <= i < len
        ensures buf[Slot(start, i, buf.Length)] == contents[i]
      {
        assert Slot(start, i, buf.Length) == Slot(old(start), k + i, buf.Length);
      }
    }

    /** Make room for `n` more bytes. Only a growing store asks the allocator, whose answer is `granted`. */
    method TryReserve(n: nat, granted: bool) returns (ok: bool)
      requires Stored()
      modifies this`buf, this`start
      ensures Stored()
      ensures !ok ==> !granted && buf == old(buf)
      ensures ok ==> len + n <= buf.Length
      ensures buf == old(buf) || fresh(buf)
    {
      if len + n <= buf.Length {
        return true;
      }
      if !granted {
        return false;
      }
      var bigger := new byte[len + n];
      for i := 0 to len
        invariant Stored() && buf == old(buf)
        invariant forall k :: 0 <= k < i ==> bigger[k] == contents[k]
      {
        bigger[i] := buf[Slot(start, i, buf.Length)];
      }
      buf, start := bigger, 0;
      ok := true;
    }

    /** Append `data` into reserved room, wrapping at the end of the store. */
    method Extend(data: seq<byte>)
      requires Stored() && len + |data| <= buf.Length
      modifies this`len, this`contents, buf
      ensures Stored() && contents == old(contents) + data
    {
      for i := 0 to |data|
        invariant Stored() && contents == old(contents) + data[..i]
      {
        Put(data[i]);
        assert data[..i + 1] == data[..i] + [data[i]];
        Regroup(old(contents), data[..i], [data[i]]);
      }
      assert data[..|data|] == data;
    }

    method Put(b: byte)
      requires Stored() && len < buf.Length
      modifies this`len, this`contents, buf
      ensures Stored() && contents == old(contents) + [b]
    {
      buf[Slot(start, len, buf.Length)] := b;
      len := len + 1;
      contents := contents + [b];
      assert forall i :: 0 <= i < len - 1 ==> Slot(start, i, buf.Length) != Slot(start, len - 1, buf.Length);
    }

    /** Evict the oldest bytes until `keep` more fit the capacity. */
    method MakeRoom(keep: nat)
      requires Valid() && keep <= cap
      modifies this`start, this`len, this`contents
      ensures Valid()
      ensures len == Min(old(len), cap - keep)
    {
      var projected := len + keep;
      if projected > cap {
        ShorterSuffix(history, len, projected - cap);
        DropFront(SatSub(projected, cap));
      }
    }

    /** Keep the last `keep` bytes of `data` in reserved room and count all of them. */
    method Accept(data: seq<byte>, keep: nat)
      requires Valid() && keep <= |data| && len + keep <= cap && len + keep <= buf.Length
      requires keep == |data| || len == 0
      modifies this`len, this`head, this`contents, this`history, buf
      ensures Valid()
      ensures history == old(history) + data && len == old(len) + keep
    {
      LongerSuffix(history, len, data, |data| - keep);
      Extend(data[SatSub(|data|, keep)..]);
      head := SatAdd(head, |data|);
      history := history + data;
    }

    method CountOnly(data: seq<byte>)
      requires Valid() && (cap == 0 || data == [])
      modifies this`head, this`history
      ensures Valid() && View() == H.Apply(old(View()), H.Stored(data))
    {
      head := SatAdd(head, |data|);
      history := history + data;
    }

    /** Append PTY output, evicting the oldest bytes first; `granted` is the allocator's answer. */
    method Push(data: seq<byte>, granted: bool) returns (ok: bool)
      requires Valid()
      modifies this, buf
      ensures Valid() && (buf == old(buf) || fresh(buf))
      ensures View() == H.Apply(old(View()), if ok then H.Stored(data) else H.Refused(data))
      ensures granted || cap == 0 || data == [] ==> ok
    {
      ghost var before := View();
      if cap == 0 || data == [] {
        CountOnly(data);
        return true;
      }
      var keep := Min(|data|, cap);
      MakeRoom(keep);
      ok := TryReserve(keep, granted);
      PushedLength(before, data);
      if ok {
        Accept(data, keep);
      }
    }

    /** Copy what lies at cursor `from`, at most `max` bytes of it (0 is no bound). */
    method ReadAt(from: nat, max: nat) returns (r: H.ReadOutcome)
      requires Valid()
      ensures |history| <= U64_MAX ==> r == H.ReadAt(View(), from, max)
    {
      var tail := SatSub(head, len);
      if from > head {
        return H.Invalid;
      }
      if from < tail {
        return H.Gap(tail);
      }
      if |history| <= U64_MAX {
        ReadWithin(View(), from, max);
      }
      if from == head {
        return H.Data(from, []);
      }
      var skip := SatSub(from, tail);
      var avail := SatSub(len, skip);
      var want := if max == 0 then avail else Min(avail, max);
      var data := CopyOut(skip, want);
      r := H.Data(from, data);
    }

    method CopyOut(skip: nat, want: nat) returns (data: seq<byte>)
      requires Valid()
      ensures skip + want <= len ==> var at := |history| - len + skip; data == history[at..at + want]
    {
      if skip + want <= len {
        SliceOfSuffix(history, len, skip, want);
      }
      var a, b := AsSlices();
      data := CopyRange(a, b, skip, want);
    }
  }
}
