/**
 The `tokio::sync::Notify` behind a session's data signal: one stored permit, a
 queue of registered waiters, and waiters that were picked but have not yet run.
 A waiter dropped after being picked passes its notification on.
 */
module WakeSignal {
  datatype Signal = Signal(permit: bool, waiters: seq<nat>, picked: set<nat>) {
    ghost predicate Valid() {
      && (permit ==> waiters == [])
      && (forall i, j :: 0 <= i < j < |waiters| ==> waiters[i] != waiters[j])
      && (forall i :: 0 <= i < |waiters| ==> waiters[i] !in picked)
    }

    predicate Registered(t: nat) {
      t in waiters || t in picked
    }

    /** A notification is stored or on its way to some waiter. */
    predicate Pending() {
      permit || picked != {}
    }
  }

  function Quiet(): Signal {
    Signal(false, [], {})
  }

  function NotifyOne(n: Signal): Signal {
    if n.waiters == [] then n.(permit := true)
    else n.(waiters := n.waiters[1..], picked := n.picked + {n.waiters[0]})
  }

  function Without(s: seq<nat>, t: nat): seq<nat> {
    if s == [] then [] else if s[0] == t then s[1..] else [s[0]] + Without(s[1..], t)
  }

  /** Dropping the future of waiter `t`. */
  function Abandon(n: Signal, t: nat): Signal {
    if t in n.picked then NotifyOne(n.(picked := n.picked - {t}))
    else n.(waiters := Without(n.waiters, t))
  }

  /** Whether polling the future of `t` completes it. */
  predicate Ready(n: Signal, t: nat) {
    t in n.picked || (t !in n.waiters && n.permit)
  }

  /** The signal after polling the future of `t`. */
  function Poll(n: Signal, t: nat): Signal {
    if t in n.picked then n.(picked := n.picked - {t})
    else if t in n.waiters then n
    else if n.permit then n.(permit := false)
    else n.(waiters := n.waiters + [t])
  }

  lemma {:induction false} WithoutIs(s: seq<nat>, t: nat)
    requires forall i, j :: 0 <= i < j < |s| ==> s[i] != s[j]
    ensures var r := Without(s, t);
            && (forall i, j :: 0 <= i < j < |r| ==> r[i] != r[j])
            && (forall u :: u in r <==> u in s && u != t)
            && (forall i :: 0 <= i < |r| ==> r[i] in s)
  {
    if s != [] && s[0] != t {
      WithoutIs(s[1..], t);
      var r := Without(s[1..], t);
      assert forall u :: u in s <==> u == s[0] || u in s[1..];
      assert forall u :: u in [s[0]] + r <==> u == s[0] || u in r;
      assert forall i :: 0 <= i < |r| ==> r[i] != s[0];
    } else if s != [] {
      assert forall u :: u in s <==> u == s[0] || u in s[1..];
      assert forall i :: 0 <= i < |s[1..]| ==> s[1..][i] in s;
    }
  }

  /** A notification is never lost by the signal itself, and it only ever moves registered waiters along. */
  lemma NotifyOneIs(n: Signal)
    requires n.Valid()
    ensures var m := NotifyOne(n);
            m.Valid() && m.Pending() && (forall u :: m.Registered(u) <==> n.Registered(u)) && n.picked <= m.picked
  {
    assert n.waiters != [] ==> n.waiters[0] in NotifyOne(n).picked;
    assert forall u :: u in n.waiters <==> n.waiters != [] && (u == n.waiters[0] || u in n.waiters[1..]);
  }

  lemma AbandonIs(n: Signal, t: nat)
    requires n.Valid()
    ensures var m := Abandon(n, t);
            m.Valid() && (n.Pending() ==> m.Pending()) && (forall u :: m.Registered(u) <==> n.Registered(u) && u != t)
  {
    if t in n.picked {
      NotifyOneIs(n.(picked := n.picked - {t}));
    } else {
      WithoutIs(n.waiters, t);
      var r := Without(n.waiters, t);
      forall i | 0 <= i < |r|
        ensures r[i] !in n.picked
      {
        assert r[i] in n.waiters;
      }
      assert forall i, j :: 0 <= i < j < |r| ==> r[i] != r[j];
      assert Abandon(n, t) == Signal(n.permit, r, n.picked);
    }
  }

  /** A poll that completes uses up its notification; one that does not leaves every notification where it was. */
  lemma PollIs(n: Signal, t: nat)
    requires n.Valid()
    ensures var m := Poll(n, t);
            && m.Valid()
            && (forall u :: m.Registered(u) <==> if u == t then !Ready(n, t) else n.Registered(u))
            && (!Ready(n, t) ==> m.Pending() == n.Pending() && t in m.waiters)
            && (Ready(n, t) ==> m == if t in n.picked then n.(picked := n.picked - {t}) else n.(permit := false))
  {
    var m := Poll(n, t);
    if t !in n.picked && t !in n.waiters && !n.permit {
      assert forall u :: u in m.waiters <==> u in n.waiters || u == t;
    }
  }

  /** Passing a notification on leaves one registered waiter fewer. */
  lemma AbandonShrinks(n: Signal, t: nat)
    requires n.Valid() && t in n.picked
    ensures var m := Abandon(n, t); |m.picked| + |m.waiters| < |n.picked| + |n.waiters|
  {
  }
}
