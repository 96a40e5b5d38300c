/**
 Rewriting a proxied request's target for the node: the `/n/<id>` prefix and the
 relay key are taken out, everything else is passed on as it came.
 */
module QueryRewrite {
  import opened Base
  import opened Text

  const RELAY_KEY_QUERY: string := "relay_key"

  function KeyOf(pair: string): string {
    pair[..Find(pair, '=')]
  }

  function WithoutKey(pairs: seq<string>, key: string): (kept: seq<string>)
    ensures forall p :: p in kept <==> p in pairs && KeyOf(p) != key
  {
    if pairs == [] then []
    else if KeyOf(pairs[0]) == key then WithoutKey(pairs[1..], key)
    else [pairs[0]] + WithoutKey(pairs[1..], key)
  }

  function StripRelayKey(query: string): string {
    Join(WithoutKey(Split(query, '&'), RELAY_KEY_QUERY), '&')
  }

  /** The value of the first pair with this key and an `=`. */
  function FindIn(pairs: seq<string>, key: string): Option<string> {
    if pairs == [] then None
    else if KeyOf(pairs[0]) == key && |KeyOf(pairs[0])| < |pairs[0]| then Some(pairs[0][|key| + 1..])
    else FindIn(pairs[1..], key)
  }

  function FindQuery(query: string, key: string): Option<string> {
    FindIn(Split(query, '&'), key)
  }

  function StripNodePrefix(path: string): string {
    var afterN := if "/n/" <= path then path[3..] else path;
    var i := Find(afterN, '/');
    if i < |afterN| then afterN[i..] else "/"
  }

  /** Path and query as sent to the node. */
  function ForwardTarget(path: string, query: Option<string>): string {
    var filtered := if query.Some? then StripRelayKey(query.value) else "";
    if filtered == "" then StripNodePrefix(path) else StripNodePrefix(path) + "?" + filtered
  }

  // ---- what a query says ----

  /** The pair gives `key` a value. */
  predicate Gives(pair: string, key: string) {
    key + "=" <= pair
  }

  /** A pair's key is what stands before its first `=`, or all of it. */
  lemma KeyOfMeans(pair: string, key: string)
    ensures KeyOf(pair) == key <==> '=' !in key && (pair == key || Gives(pair, key))
  {
    var i := Find(pair, '=');
    if '=' !in key {
      if Gives(pair, key) {
        var rest := pair[|key| + 1..];
        assert pair == key + ['='] + rest;
        FindAt(key, '=', rest);
      } else if pair == key {
        assert i == |pair|;
      }
    }
  }

  ghost predicate SomeFirst(pairs: seq<string>, key: string, v: string) {
    exists i :: 0 <= i < |pairs| && FirstIs(pairs, key, v, i)
  }

  lemma FirstGives(pairs: seq<string>, key: string, v: string)
    requires pairs != []
    ensures (KeyOf(pairs[0]) == key && |KeyOf(pairs[0])| < |pairs[0]|) <==> '=' !in key && Gives(pairs[0], key)
    ensures Gives(pairs[0], key) ==> (pairs[0][|key| + 1..] == v <==> pairs[0] == key + "=" + v)
  {
    KeyOfMeans(pairs[0], key);
  }

  lemma {:induction false} FindInMeans(pairs: seq<string>, key: string, v: string)
    ensures FindIn(pairs, key) == Some(v)
            <==> '=' !in key && SomeFirst(pairs, key, v)
    ensures FindIn(pairs, key) == None <==> '=' in key || forall i :: 0 <= i < |pairs| ==> !Gives(pairs[i], key)
  {
    if pairs != [] {
      FirstGives(pairs, key, v);
      FindInMeans(pairs[1..], key, v);
      assert FirstIs(pairs, key, v, 0) <==> pairs[0] == key + "=" + v;
      forall i | 0 < i < |pairs|
        ensures FirstIs(pairs, key, v, i) <==> !Gives(pairs[0], key) && FirstIs(pairs[1..], key, v, i - 1)
      {
        assert forall j :: 0 < j < |pairs| ==> pairs[j] == pairs[1..][j - 1];
      }
      if SomeFirst(pairs[1..], key, v) {
        var i :| 0 <= i < |pairs| - 1 && FirstIs(pairs[1..], key, v, i);
        assert FirstIs(pairs, key, v, i + 1) <==> !Gives(pairs[0], key);
      }
    }
  }

  /** Pair `i` gives `key` the value `v`, and none before it gives it any. */
  predicate FirstIs(pairs: seq<string>, key: string, v: string, i: nat)
    requires i < |pairs|
  {
    pairs[i] == key + "=" + v && forall j :: 0 <= j < i ==> !Gives(pairs[j], key)
  }

  /** A query gives a key the value after the `=` of the first of its pairs that begins with the key and `=`. */
  lemma FindQueryMeans(query: string, key: string, v: string)
    ensures var pairs := Split(query, '&');
            && (FindQuery(query, key) == Some(v)
                <==> '=' !in key && SomeFirst(pairs, key, v))
            && (FindQuery(query, key) == None <==> '=' in key || forall p :: p in pairs ==> !Gives(p, key))
  {
    FindInMeans(Split(query, '&'), key, v);
  }

  // ---- what stripping keeps ----

  /** How many of the first `n` pairs have another key. */
  function OthersBefore(pairs: seq<string>, key: string, n: nat): nat
    requires n <= |pairs|
  {
    if n == 0 then 0 else OthersBefore(pairs, key, n - 1) + if KeyOf(pairs[n - 1]) == key then 0 else 1
  }

  lemma {:induction false} WithoutConcat(a: seq<string>, b: seq<string>, key: string)
    ensures WithoutKey(a + b, key) == WithoutKey(a, key) + WithoutKey(b, key)
  {
    if a == [] {
      assert a + b == b;
    } else {
      var rest := WithoutKey(a[1..], key);
      WithoutConcat(a[1..], b, key);
      assert (a + b)[1..] == a[1..] + b && (a + b)[0] == a[0];
      if KeyOf(a[0]) == key {
        assert WithoutKey(a + b, key) == rest + WithoutKey(b, key);
      } else {
        assert WithoutKey(a + b, key) == [a[0]] + (rest + WithoutKey(b, key));
        Regroup([a[0]], rest, WithoutKey(b, key));
      }
    }
  }

  lemma {:induction false} OthersAreCounted(pairs: seq<string>, key: string, n: nat)
    requires n <= |pairs|
    ensures |WithoutKey(pairs[..n], key)| == OthersBefore(pairs, key, n)
  {
    if n > 0 {
      OthersAreCounted(pairs, key, n - 1);
      WithoutConcat(pairs[..n - 1], [pairs[n - 1]], key);
      assert pairs[..n] == pairs[..n - 1] + [pairs[n - 1]];
      assert [pairs[n - 1]][1..] == [];
    }
  }

  /** Every pair with another key is kept, in its place among those, and nothing else is. */
  lemma OthersStayInPlace(pairs: seq<string>, key: string, i: nat)
    requires i < |pairs|
    ensures var kept := WithoutKey(pairs, key);
            && |kept| == OthersBefore(pairs, key, |pairs|)
            && (KeyOf(pairs[i]) != key ==>
                  OthersBefore(pairs, key, i) < |kept| && kept[OthersBefore(pairs, key, i)] == pairs[i])
  {
    OthersAreCounted(pairs, key, |pairs|);
    OthersAreCounted(pairs, key, i);
    assert pairs[..|pairs|] == pairs;
    assert pairs == pairs[..i] + pairs[i..];
    WithoutConcat(pairs[..i], pairs[i..], key);
  }

  /** The pairs left after stripping are the other pairs, in order; with none left the query is empty. */
  lemma StripKeepsPairsInOrder(query: string)
    ensures var kept := WithoutKey(Split(query, '&'), RELAY_KEY_QUERY);
            Split(StripRelayKey(query), '&') == if kept == [] then [""] else kept
  {
    var kept := WithoutKey(Split(query, '&'), RELAY_KEY_QUERY);
    if kept == [] {
      assert Find("", '&') == 0;
    } else {
      SplitJoin(kept, '&');
    }
  }

  lemma {:induction false} FindInWithout(pairs: seq<string>, key: string, other: string)
    ensures FindIn(WithoutKey(pairs, key), other) == if other == key then None else FindIn(pairs, other)
  {
    if pairs != [] {
      FindInWithout(pairs[1..], key, other);
    }
  }

  /**
   For every query string: the node finds no relay key in what it is sent, and for
   every other key exactly what the client sent.
   */
  lemma StripPreservesMeaning(query: string, key: string)
    ensures FindQuery(StripRelayKey(query), key)
            == if key == RELAY_KEY_QUERY then None else FindQuery(query, key)
  {
    var kept := WithoutKey(Split(query, '&'), RELAY_KEY_QUERY);
    StripKeepsPairsInOrder(query);
    FindInWithout(Split(query, '&'), RELAY_KEY_QUERY, key);
    if kept == [] {
      assert FindIn([""], key) == FindIn([""][1..], key);
    }
  }

  lemma {:induction false} WithoutTwice(pairs: seq<string>, key: string)
    ensures WithoutKey(WithoutKey(pairs, key), key) == WithoutKey(pairs, key)
  {
    if pairs != [] {
      WithoutTwice(pairs[1..], key);
      var rest := WithoutKey(pairs[1..], key);
      if KeyOf(pairs[0]) != key {
        assert ([pairs[0]] + rest)[1..] == rest;
      }
    }
  }

  /** A query without the relay key is forwarded unchanged, and stripping twice is stripping once. */
  lemma StripIsIdempotent(query: string)
    ensures StripRelayKey(StripRelayKey(query)) == StripRelayKey(query)
    ensures (forall p :: p in Split(query, '&') ==> KeyOf(p) != RELAY_KEY_QUERY) ==> StripRelayKey(query) == query
  {
    var pairs := Split(query, '&');
    StripKeepsPairsInOrder(query);
    WithoutTwice(pairs, RELAY_KEY_QUERY);
    if WithoutKey(pairs, RELAY_KEY_QUERY) == [] {
      assert KeyOf("") == "";
      assert WithoutKey([""], RELAY_KEY_QUERY) == [""] + WithoutKey([""][1..], RELAY_KEY_QUERY);
    }
    if forall p :: p in pairs ==> KeyOf(p) != RELAY_KEY_QUERY {
      WithoutNone(pairs, RELAY_KEY_QUERY);
      JoinSplit(query, '&');
    }
  }

  lemma {:induction false} WithoutNone(pairs: seq<string>, key: string)
    requires forall p :: p in pairs ==> KeyOf(p) != key
    ensures WithoutKey(pairs, key) == pairs
  {
    if pairs != [] {
      assert forall p :: p in pairs[1..] ==> p in pairs;
      WithoutNone(pairs[1..], key);
      assert pairs == [pairs[0]] + pairs[1..];
    }
  }

  /** The node sees the path after its own id, and nothing of the id. */
  lemma NodePrefixIsStripped(id: string, rest: string)
    requires '/' !in id
    ensures StripNodePrefix("/n/" + id + "/" + rest) == "/" + rest
    ensures StripNodePrefix("/n/" + id) == "/"
  {
    var path := "/n/" + id + "/" + rest;
    assert path[3..] == id + ['/'] + rest;
    assert path[..3] == "/n/";
    FindAt(id, '/', rest);
    assert (id + ['/'] + rest)[|id|..] == "/" + rest;
    assert ("/n/" + id)[3..] == id;
  }

  /**
   A path that names no node is forwarded as it is, and without a query, or with nothing left
   of it, no `?` is added.
   */
  lemma PlainTargetsStay(path: string, query: string)
    ensures "/" <= path && !("/n/" <= path) ==> StripNodePrefix(path) == path
    ensures ForwardTarget(path, None) == StripNodePrefix(path)
    ensures (forall p :: p in Split(query, '&') ==> KeyOf(p) == RELAY_KEY_QUERY) ==>
              ForwardTarget(path, Some(query)) == StripNodePrefix(path)
  {
    var kept := WithoutKey(Split(query, '&'), RELAY_KEY_QUERY);
    if kept != [] {
      assert kept[0] in kept;
    }
  }

  /** The whole target, for a request to a node: its path, and a query that means the same less the relay key. */
  lemma ForwardedRequestMeans(id: string, rest: string, query: string, key: string)
    requires '/' !in id && '?' !in rest
    ensures var target := ForwardTarget("/n/" + id + "/" + rest, Some(query));
            var at := Find(target, '?');
            && target[..at] == "/" + rest
            && (key == RELAY_KEY_QUERY ==> FindQuery(if at < |target| then target[at + 1..] else "", key) == None)
            && (key != RELAY_KEY_QUERY ==>
                  FindQuery(if at < |target| then target[at + 1..] else "", key) == FindQuery(query, key))
  {
    NodePrefixIsStripped(id, rest);
    StripPreservesMeaning(query, key);
    var target := ForwardTarget("/n/" + id + "/" + rest, Some(query));
    var filtered := StripRelayKey(query);
    FindAt("/" + rest, '?', filtered);
    if filtered != "" {
      assert target == "/" + rest + ['?'] + filtered;
      assert target[|"/" + rest| + 1..] == filtered;
    }
  }
}
