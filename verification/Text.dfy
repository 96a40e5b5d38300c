/** Splitting, joining and trimming strings, as the standard library the program uses does. */
module Text {
  /** Position of the first `c`, or the length when there is none. */
  function Find(s: string, c: char): (i: nat)
    ensures i <= |s| && (i < |s| ==> s[i] == c) && forall j :: 0 <= j < i ==> s[j] != c
  {
    if s == [] || s[0] == c then 0 else 1 + Find(s[1..], c)
  }

  /** Rust's `str::split`: one more part than there are separators. */
  function Split(s: string, c: char): (parts: seq<string>)
    ensures parts != [] && forall p :: p in parts ==> c !in p
  {
    var i := Find(s, c);
    if i == |s| then [s] else [s[..i]] + Split(s[i + 1..], c)
  }

  function Join(parts: seq<string>, c: char): string {
    if parts == [] then ""
    else if |parts| == 1 then parts[0]
    else parts[0] + [c] + Join(parts[1..], c)
  }

  /** The Unicode `White_Space` property, which `char::is_whitespace` and `str::trim` go by. */
  predicate IsSpace(c: char) {
    var u := c as int;
    || 0x09 <= u <= 0x0D || u == 0x20 || u == 0x85 || u == 0xA0 || u == 0x1680
    || 0x2000 <= u <= 0x200A || u == 0x2028 || u == 0x2029 || u == 0x202F || u == 0x205F || u == 0x3000
  }

  function TrimStart(s: string): (r: string)
    ensures |r| <= |s| && (|r| == |s| <==> s == "" || !IsSpace(s[0])) && (|r| == |s| ==> r == s)
    ensures r == "" || (!IsSpace(r[0]) && r[|r| - 1] == s[|s| - 1])
  {
    if s == [] || !IsSpace(s[0]) then s else TrimStart(s[1..])
  }

  function TrimEnd(s: string): (r: string)
    ensures |r| <= |s| && (|r| == |s| <==> s == "" || !IsSpace(s[|s| - 1])) && (|r| == |s| ==> r == s)
    ensures r == "" || (!IsSpace(r[|r| - 1]) && r[0] == s[0])
  {
    if s == [] || !IsSpace(s[|s| - 1]) then s else TrimEnd(s[..|s| - 1])
  }

  function Trim(s: string): string {
    TrimStart(TrimEnd(s))
  }

  predicate IsTrimmed(s: string) {
    s == "" || (!IsSpace(s[0]) && !IsSpace(s[|s| - 1]))
  }

  /** Trimming yields a trimmed string, and changes exactly the strings that are not. */
  lemma TrimMeans(s: string)
    ensures IsTrimmed(Trim(s))
    ensures Trim(s) == s <==> IsTrimmed(s)
  {
  }

  predicate AllSpace(s: string) {
    forall i :: 0 <= i < |s| ==> IsSpace(s[i])
  }

  /** Trimming takes white space off the ends, and nothing else. */
  lemma TrimTakesSpace(s: string) returns (a: string, b: string)
    ensures s == a + Trim(s) + b && AllSpace(a) && AllSpace(b)
  {
    var j := TrimEndAt(s);
    var i := TrimStartAt(s[..j]);
    a, b := s[..i], s[j..];
    assert s == s[..j] + b && s[..j] == a + s[..j][i..];
  }

  lemma {:induction false} TrimStartAt(s: string) returns (i: nat)
    ensures i <= |s| && TrimStart(s) == s[i..] && forall k :: 0 <= k < i ==> IsSpace(s[k])
  {
    if s == [] || !IsSpace(s[0]) {
      i := 0;
    } else {
      i := TrimStartAt(s[1..]);
      assert s[1..][i..] == s[1 + i..];
      assert forall k :: 0 < k < 1 + i ==> s[k] == s[1..][k - 1];
      i := 1 + i;
    }
  }

  lemma {:induction false} TrimEndAt(s: string) returns (j: nat)
    ensures j <= |s| && TrimEnd(s) == s[..j] && forall k :: j <= k < |s| ==> IsSpace(s[k])
  {
    if s == [] || !IsSpace(s[|s| - 1]) {
      j := |s|;
      assert s[..j] == s;
    } else {
      j := TrimEndAt(s[..|s| - 1]);
      assert s[..|s| - 1][..j] == s[..j];
      assert forall k :: j <= k < |s| - 1 ==> s[k] == s[..|s| - 1][k];
    }
  }

  lemma {:induction false} TrimStartOver(a: string, s: string)
    requires AllSpace(a)
    ensures TrimStart(a + s) == TrimStart(s)
  {
    if a == "" {
      assert a + s == s;
    } else {
      TrimStartOver(a[1..], s);
      assert (a + s)[1..] == a[1..] + s;
    }
  }

  lemma {:induction false} TrimEndOver(s: string, b: string)
    requires AllSpace(b)
    ensures TrimEnd(s + b) == TrimEnd(s)
  {
    if b == "" {
      assert s + b == s;
    } else {
      TrimEndOver(s, b[..|b| - 1]);
      assert (s + b)[..|s + b| - 1] == s + b[..|b| - 1];
    }
  }

  /** White space around a string that has none at its ends is trimmed off. */
  lemma TrimPadded(a: string, s: string, b: string)
    requires AllSpace(a) && AllSpace(b) && IsTrimmed(s) && s != ""
    ensures Trim(a + s + b) == s
  {
    TrimEndOver(a + s, b);
    assert TrimEnd(a + s) == a + s;
    TrimStartOver(a, s);
  }

  lemma FindAt(a: string, c: char, rest: string)
    requires c !in a
    ensures Find(a + [c] + rest, c) == |a| && Find(a, c) == |a|
  {
    var s := a + [c] + rest;
    assert s[|a|] == c;
    assert forall j :: 0 <= j < |a| ==> s[j] == a[j];
  }

  lemma FirstFieldIsDetermined(a: string, rest: string, b: string, more: string, c: char)
    requires c !in a && c !in b && a + [c] + rest == b + [c] + more
    ensures a == b && rest == more
  {
    FindAt(a, c, rest);
    FindAt(b, c, more);
    var s := a + [c] + rest;
    assert s[..|a|] == a && s[..|b|] == b && s[|a| + 1..] == rest && s[|b| + 1..] == more;
  }

  lemma SplitFirst(a: string, c: char, rest: string)
    requires c !in a
    ensures Split(a + [c] + rest, c) == [a] + Split(rest, c)
  {
    FindAt(a, c, rest);
    var s := a + [c] + rest;
    assert s[..|a|] == a && s[|a| + 1..] == rest;
  }

  lemma JoinCons(first: string, rest: seq<string>, c: char)
    requires rest != []
    ensures Join([first] + rest, c) == first + [c] + Join(rest, c)
  {
    assert ([first] + rest)[1..] == rest;
  }

  lemma {:induction false} JoinSplit(s: string, c: char)
    ensures Join(Split(s, c), c) == s
    decreases |s|
  {
    var i := Find(s, c);
    if i < |s| {
      var rest := s[i + 1..];
      JoinSplit(rest, c);
      JoinCons(s[..i], Split(rest, c), c);
      assert s == s[..i] + [s[i]] + rest;
    }
  }

  lemma SplitNothing(s: string, c: char)
    requires c !in s
    ensures Split(s, c) == [s]
  {
    assert Find(s, c) == |s|;
  }

  lemma {:induction false} SplitJoin(parts: seq<string>, c: char)
    requires parts != [] && forall i :: 0 <= i < |parts| ==> c !in parts[i]
    ensures Split(Join(parts, c), c) == parts
    decreases |parts|
  {
    var first, rest := parts[0], parts[1..];
    if |parts| == 1 {
      SplitNothing(first, c);
    } else {
      SplitJoin(rest, c);
      SplitFirst(first, c, Join(rest, c));
    }
  }
}
