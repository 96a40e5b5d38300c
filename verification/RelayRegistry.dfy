/**
 The relay's node registry. A registration draws its generation before it takes
 the lock; control loops then change their node's entry only while it carries
 their own generation.
 */
module RelayRegistry {
  import opened Base

  datatype Downstream = Downstream(nodeId: string, name: string, reachable: bool)

  type LoopId = nat

  /** `ctrl` stands for the registration's control sender: the loop that owns it. */
  datatype Node = Node(
    name: string, downstreams: seq<Downstream>, lastSeen: int, connected: bool, generation: nat, ctrl: LoopId)

  type Nodes = map<string, Node>

  datatype Route = Route(via: string, target: string, isDownstream: bool, reachable: bool)

  // ---- what each registry call does to the entries ----

  function Registered(ns: Nodes, id: string, name: string, ds: seq<Downstream>, now: int, g: nat, ctrl: LoopId): Nodes {
    ns[id := Node(name, ds, now, true, g, ctrl)]
  }

  function Touched(ns: Nodes, id: string, g: nat, now: int): Nodes {
    if id in ns && ns[id].generation == g then ns[id := ns[id].(lastSeen := now)] else ns
  }

  function WithDownstreams(ns: Nodes, id: string, g: nat, ds: seq<Downstream>, now: int): Nodes {
    if id in ns && ns[id].generation == g then ns[id := ns[id].(downstreams := ds, lastSeen := now)] else ns
  }

  function Disconnected(ns: Nodes, id: string, g: nat): Nodes {
    if id in ns && ns[id].generation == g then ns[id := ns[id].(connected := false)] else ns
  }

  /** The entry is still the one made under generation `g`. */
  predicate Current(ns: Nodes, id: string, g: nat) {
    id in ns && ns[id].generation == g
  }

  /** `d` is the first entry of a list for `id`. */
  ghost predicate FirstFor(ds: seq<Downstream>, id: string, d: Downstream) {
    exists i :: 0 <= i < |ds| && ds[i] == d && d.nodeId == id && forall j :: 0 <= j < i ==> ds[j].nodeId != id
  }

  ghost predicate Advertised(ds: seq<Downstream>, id: string) {
    exists i :: 0 <= i < |ds| && ds[i].nodeId == id
  }

  class Registry {
    var nodes: Nodes
    var nextGen: nat

    constructor ()
      ensures nodes == map[] && nextGen == 1
    {
      nodes, nextGen := map[], 1;
    }

    /** `fetch_add`, outside the lock. */
    method DrawGeneration() returns (g: nat)
      modifies this`nextGen
      ensures g == old(nextGen) && nextGen == g + 1
    {
      g := nextGen;
      nextGen := nextGen + 1;
    }

    method Insert(id: string, name: string, ds: seq<Downstream>, now: int, g: nat, ctrl: LoopId)
      modifies this`nodes
      ensures nodes == Registered(old(nodes), id, name, ds, now, g, ctrl)
      ensures nodes == old(nodes)[id := Node(name, ds, now, true, g, ctrl)]
    {
      nodes := nodes[id := Node(name, ds, now, true, g, ctrl)];
    }

    /** A registration draws its generation and then, in a second step, takes the lock. */
    method Register(id: string, name: string, ds: seq<Downstream>, now: int, ctrl: LoopId) returns (g: nat)
      modifies this
      ensures g == old(nextGen) && nextGen == g + 1
      ensures nodes == Registered(old(nodes), id, name, ds, now, g, ctrl)
    {
      g := DrawGeneration();
      Insert(id, name, ds, now, g, ctrl);
    }

    method Touch(id: string, g: nat, now: int)
      modifies this`nodes
      ensures nodes == Touched(old(nodes), id, g, now)
      ensures nodes == if Current(old(nodes), id, g) then
                old(nodes)[id := old(nodes)[id].(lastSeen := now)] else old(nodes)
    {
      if id in nodes {
        var s := nodes[id];
        if s.generation == g {
          nodes := nodes[id := s.(lastSeen := now)];
        }
      }
    }

    method SetDownstreams(id: string, g: nat, ds: seq<Downstream>, now: int)
      modifies this`nodes
      ensures nodes == WithDownstreams(old(nodes), id, g, ds, now)
      ensures nodes == if Current(old(nodes), id, g) then
                old(nodes)[id := old(nodes)[id].(downstreams := ds, lastSeen := now)] else old(nodes)
    {
      if id in nodes {
        var s := nodes[id];
        if s.generation == g {
          nodes := nodes[id := s.(downstreams := ds, lastSeen := now)];
        }
      }
    }

    method Disconnect(id: string, g: nat)
      modifies this`nodes
      ensures nodes == Disconnected(old(nodes), id, g)
      ensures nodes == if Current(old(nodes), id, g) then
                old(nodes)[id := old(nodes)[id].(connected := false)] else old(nodes)
    {
      if id in nodes {
        var s := nodes[id];
        if s.generation == g {
          nodes := nodes[id := s.(connected := false)];
        }
      }
    }

    /** A known node routes to itself; anything else through some node that advertises it, with that node's verdict. */
    method FindRoute(id: string) returns (r: Option<Route>)
      ensures id in nodes ==> r == Some(Route(id, id, false, true))
      ensures id !in nodes ==>
                match r
                case None => forall gw :: gw in nodes ==> !Advertised(nodes[gw].downstreams, id)
                case Some(route) =>
                  && route.target == id && route.isDownstream && route.via in nodes
                  && exists d :: FirstFor(nodes[route.via].downstreams, id, d) && route.reachable == d.reachable
    {
      if id in nodes {
        return Some(Route(id, id, false, true));
      }
      var left := nodes.Keys;
      while left != {}
        invariant left <= nodes.Keys
        invariant forall gw :: gw in nodes && gw !in left ==> !Advertised(nodes[gw].downstreams, id)
        decreases left
      {
        var gw :| gw in left;
        left := left - {gw};
        var ds := nodes[gw].downstreams;
        var i := 0;
        while i < |ds|
          invariant i <= |ds| && forall j :: 0 <= j < i ==> ds[j].nodeId != id
        {
          if ds[i].nodeId == id {
            assert FirstFor(ds, id, ds[i]);
            return Some(Route(gw, id, true, ds[i].reachable));
          }
          i := i + 1;
        }
      }
      r := None;
    }
  }

  // ---- control loops, interleaved ----

  /** What a control loop's hello said. */
  datatype Hello = Hello(node: string, name: string, downstreams: seq<Downstream>)

  datatype Act =
    | Draw(loop: LoopId, hello: Hello)
    | Join(loop: LoopId, now: int)
    | Ping(loop: LoopId, now: int)
    | Advertise(loop: LoopId, downstreams: seq<Downstream>, now: int)
    | Leave(loop: LoopId)

  datatype Relay = Relay(nodes: Nodes, nextGen: nat, hellos: map<LoopId, Hello>, gens: map<LoopId, nat>,
                         joined: set<LoopId>)

  function Start(): Relay {
    Relay(map[], 1, map[], map[], {})
  }

  /** Each loop draws once, then joins once, then pings, advertises and leaves as it likes. */
  predicate Can(r: Relay, a: Act) {
    match a
    case Draw(l, _) => l !in r.gens
    case Join(l, _) => l in r.gens && l in r.hellos && l !in r.joined
    case _ => a.loop in r.gens && a.loop in r.hellos && a.loop in r.joined
  }

  function Step(r: Relay, a: Act): Relay
    requires Can(r, a)
  {
    match a
    case Draw(l, hello) => r.(nextGen := r.nextGen + 1, hellos := r.hellos[l := hello], gens := r.gens[l := r.nextGen])
    case Join(l, now) =>
      var h := r.hellos[l];
      r.(nodes := Registered(r.nodes, h.node, h.name, h.downstreams, now, r.gens[l], l), joined := r.joined + {l})
    case Ping(l, now) => r.(nodes := Touched(r.nodes, r.hellos[l].node, r.gens[l], now))
    case Advertise(l, ds, now) => r.(nodes := WithDownstreams(r.nodes, r.hellos[l].node, r.gens[l], ds, now))
    case Leave(l) => r.(nodes := Disconnected(r.nodes, r.hellos[l].node, r.gens[l]))
  }

  function After(acts: seq<Act>): Option<Relay> {
    if acts == [] then Some(Start())
    else
      match After(acts[..|acts| - 1])
      case None => None
      case Some(r) => if Can(r, acts[|acts| - 1]) then Some(Step(r, acts[|acts| - 1])) else None
  }

  // ---- the entries without generations: by who joined last ----

  /** The loop that joined for a node last, if any. */
  function Owner(acts: seq<Act>, hellos: map<LoopId, Hello>, id: string): Option<LoopId> {
    if acts == [] then None
    else
      var a := acts[|acts| - 1];
      if a.Join? && a.loop in hellos && hellos[a.loop].node == id then Some(a.loop)
      else Owner(acts[..|acts| - 1], hellos, id)
  }

  /** What its owner's later acts do to an entry. */
  function OwnersAct(node: Node, a: Act): Node {
    match a
    case Ping(_, now) => node.(lastSeen := now)
    case Advertise(_, ds, now) => node.(downstreams := ds, lastSeen := now)
    case Leave(_) => node.(connected := false)
    case _ => node
  }

  /** A node's entry by ownership alone: its owner's join, then only what that owner did afterwards. */
  function Replay(acts: seq<Act>, hellos: map<LoopId, Hello>, gens: map<LoopId, nat>, id: string): Option<Node> {
    if acts == [] then None
    else
      var a, before := acts[|acts| - 1], acts[..|acts| - 1];
      var entry := Replay(before, hellos, gens, id);
      if a.loop !in hellos || a.loop !in gens || hellos[a.loop].node != id then entry
      else if a.Join? then
        Some(Node(hellos[a.loop].name, hellos[a.loop].downstreams, a.now, true, gens[a.loop], a.loop))
      else if entry.Some? && Owner(before, hellos, id) == Some(a.loop) then Some(OwnersAct(entry.value, a))
      else entry
  }

  ghost predicate GensOk(r: Relay) {
    && r.gens.Keys == r.hellos.Keys && r.joined <= r.gens.Keys
    && (forall l :: l in r.gens ==> r.gens[l] < r.nextGen)
    && (forall l, m :: l in r.gens && m in r.gens && l != m ==> r.gens[l] != r.gens[m])
  }

  ghost predicate EntryOk(r: Relay, acts: seq<Act>, id: string) {
    && (if id in r.nodes then Replay(acts, r.hellos, r.gens, id) == Some(r.nodes[id])
        else Replay(acts, r.hellos, r.gens, id) == None)
    && (id in r.nodes ==>
          && r.nodes[id].ctrl in r.joined && r.nodes[id].ctrl in r.hellos && r.nodes[id].ctrl in r.gens
          && r.hellos[r.nodes[id].ctrl].node == id
          && r.nodes[id].generation == r.gens[r.nodes[id].ctrl]
          && Owner(acts, r.hellos, id) == Some(r.nodes[id].ctrl))
  }

  ghost predicate ActsKnown(r: Relay, acts: seq<Act>) {
    forall i :: 0 <= i < |acts| && !acts[i].Draw? ==> acts[i].loop in r.gens
  }

  /** A hello and generation drawn later change nothing about what was done before. */
  lemma {:induction false} DrawIsLater(acts: seq<Act>, r: Relay, l: LoopId, h: Hello, g: nat, id: string)
    requires ActsKnown(r, acts) && GensOk(r) && l !in r.gens
    ensures Owner(acts, r.hellos[l := h], id) == Owner(acts, r.hellos, id)
    ensures Replay(acts, r.hellos[l := h], r.gens[l := g], id) == Replay(acts, r.hellos, r.gens, id)
  {
    if acts != [] {
      var before := acts[..|acts| - 1];
      assert forall i :: 0 <= i < |before| ==> before[i] == acts[i];
      DrawIsLater(before, r, l, h, g, id);
    }
  }

  lemma StepKeepsEntry(r: Relay, acts: seq<Act>, a: Act, id: string)
    requires GensOk(r) && ActsKnown(r, acts) && EntryOk(r, acts, id) && Can(r, a)
    ensures EntryOk(Step(r, a), acts + [a], id)
  {
    assert (acts + [a])[..|acts|] == acts;
    if a.Draw? {
      DrawIsLater(acts, r, a.loop, a.hello, r.nextGen, id);
    }
  }

  lemma StepKeepsGens(r: Relay, acts: seq<Act>, a: Act)
    requires GensOk(r) && ActsKnown(r, acts) && Can(r, a)
    ensures GensOk(Step(r, a)) && ActsKnown(Step(r, a), acts + [a])
  {
  }

  /**
   Generation fencing: under every interleaving of control loops a node's entry
   is its last joined registration followed by what that registration alone did
   afterwards, whatever order generations were drawn in.
   */
  lemma {:induction false} FencingIsOwnership(acts: seq<Act>, id: string)
    requires After(acts).Some?
    ensures GensOk(After(acts).value) && ActsKnown(After(acts).value, acts)
    ensures EntryOk(After(acts).value, acts, id)
  {
    if acts != [] {
      var before := acts[..|acts| - 1];
      FencingIsOwnership(before, id);
      assert acts == before + [acts[|acts| - 1]];
      StepKeepsEntry(After(before).value, before, acts[|acts| - 1], id);
      StepKeepsGens(After(before).value, before, acts[|acts| - 1]);
    }
  }

  /** A loop that has been superseded can do nothing: every call of its is a no-op. */
  lemma StaleLoopsAreFenced(acts: seq<Act>, a: Act)
    requires After(acts).Some? && Can(After(acts).value, a) && !a.Draw? && !a.Join?
    requires var r := After(acts).value; Owner(acts, r.hellos, r.hellos[a.loop].node) != Some(a.loop)
    ensures Step(After(acts).value, a) == After(acts).value
  {
    FencingIsOwnership(acts, After(acts).value.hellos[a.loop].node);
  }

  /** The owner's own calls do take effect, and on no other node. */
  lemma OwnersAreHeard(acts: seq<Act>, a: Act)
    requires After(acts).Some? && Can(After(acts).value, a) && !a.Draw? && !a.Join?
    requires var r := After(acts).value; Owner(acts, r.hellos, r.hellos[a.loop].node) == Some(a.loop)
    requires After(acts).value.hellos[a.loop].node in After(acts).value.nodes
    ensures var r, r' := After(acts).value, Step(After(acts).value, a);
            var id := r.hellos[a.loop].node;
            && r'.nodes.Keys == r.nodes.Keys
            && (forall n :: n in r.nodes && n != id ==> r'.nodes[n] == r.nodes[n])
            && var n, n' := r.nodes[id], r'.nodes[id];
               && n'.name == n.name && n'.generation == n.generation && n'.ctrl == n.ctrl
               && n'.connected == (n.connected && !a.Leave?)
               && n'.lastSeen == (if a.Leave? then n.lastSeen else a.now)
               && n'.downstreams == (if a.Advertise? then a.downstreams else n.downstreams)
  {
    FencingIsOwnership(acts, After(acts).value.hellos[a.loop].node);
  }

  /** A loop that joins has its hello in its node's entry, connected, under the generation it drew, and owns it. */
  lemma JoiningTakesTheEntry(acts: seq<Act>, l: LoopId, now: int)
    requires After(acts).Some? && Can(After(acts).value, Join(l, now))
    ensures var r, r' := After(acts).value, Step(After(acts).value, Join(l, now));
            var id := r.hellos[l].node;
            && id in r'.nodes && r'.nodes.Keys == r.nodes.Keys + {id}
            && (forall n :: n in r.nodes && n != id ==> r'.nodes[n] == r.nodes[n])
            && var n := r'.nodes[id];
               && n.name == r.hellos[l].name && n.downstreams == r.hellos[l].downstreams
               && n.lastSeen == now && n.connected && n.generation == r.gens[l] && n.ctrl == l
    ensures var r := After(acts).value; Owner(acts + [Join(l, now)], r.hellos, r.hellos[l].node) == Some(l)
  {
    assert (acts + [Join(l, now)])[..|acts|] == acts;
  }

  /** What wins is joining last, not drawing last: an older generation can supersede a newer one. */
  lemma OlderGenerationCanWin(one: Hello, two: Hello)
    requires one.node == two.node
    ensures var acts := [Draw(1, one), Draw(2, two), Join(2, 10), Join(1, 11), Leave(2)];
            After(acts).Some?
            && After(acts).value.nodes == map[one.node := Node(one.name, one.downstreams, 11, true, 1, 1)]
  {
    var acts: seq<Act> := [];
    AfterMore(acts, Draw(1, one));
    AfterMore(acts + [Draw(1, one)], Draw(2, two));
    AfterMore(acts + [Draw(1, one)] + [Draw(2, two)], Join(2, 10));
    AfterMore(acts + [Draw(1, one)] + [Draw(2, two)] + [Join(2, 10)], Join(1, 11));
    AfterMore(acts + [Draw(1, one)] + [Draw(2, two)] + [Join(2, 10)] + [Join(1, 11)], Leave(2));
    assert acts + [Draw(1, one)] + [Draw(2, two)] + [Join(2, 10)] + [Join(1, 11)] + [Leave(2)]
        == [Draw(1, one), Draw(2, two), Join(2, 10), Join(1, 11), Leave(2)];
  }

  lemma AfterMore(acts: seq<Act>, a: Act)
    requires After(acts).Some? && Can(After(acts).value, a)
    ensures After(acts + [a]) == Some(Step(After(acts).value, a))
  {
    assert (acts + [a])[..|acts|] == acts;
  }
}
