/**
 The holder's session registry: admission against a total-memory cap accounted by
 ring capacity, evicting dead sessions (tombstones) in least-recently-used order.
 */
module HolderRegistry {
  import opened Base

  /** The largest ring a create is let through with. */
  const RING_MAX_BYTES: nat := 32 * 1024 * 1024

  datatype Session = Session(fingerprint: nat, capacity: nat, alive: bool)

  datatype Spec = Spec(id: string, fingerprint: nat, capacity: nat)

  datatype CreateOutcome = Created | Idempotent | Exists | MemoryLimit | SpawnFailed
  datatype PurgeOutcome = Purged | Unknown | Alive

  /** The registry's locked state. */
  datatype Books = Books(sessions: map<string, Session>, used: nat, tick: nat, access: map<string, nat>)

  // ---- accounting ----

  ghost function Total(m: map<string, Session>): nat
    decreases |m|
  {
    if m == map[] then 0
    else
      var k :| k in m;
      m[k].capacity + Total(m - {k})
  }

  lemma {:induction false} TotalWithout(m: map<string, Session>, k: string)
    requires k in m
    ensures Total(m) == m[k].capacity + Total(m - {k})
    decreases |m|
  {
    var j :| j in m && Total(m) == m[j].capacity + Total(m - {j});
    if j != k {
      TotalWithout(m - {j}, k);
      TotalWithout(m - {k}, j);
      assert m - {j} - {k} == m - {k} - {j};
    }
  }

  lemma TotalWith(m: map<string, Session>, k: string, s: Session)
    requires k !in m
    ensures Total(m[k := s]) == s.capacity + Total(m)
  {
    TotalWithout(m[k := s], k);
    assert m[k := s] - {k} == m;
  }

  function Live(m: map<string, Session>): map<string, Session> {
    map k | k in m && m[k].alive :: m[k]
  }

  predicate HasDead(m: map<string, Session>) {
    exists k :: k in m && !m[k].alive
  }

  ghost predicate Inv(b: Books, limit: nat) {
    && limit < U64_MAX
    && b.used == Total(b.sessions)
    && b.used <= limit
    && b.access.Keys == b.sessions.Keys
    && (forall k :: k in b.access ==> b.access[k] <= b.tick)
    && (forall j, k :: j in b.access && k in b.access && j != k ==> b.access[j] != b.access[k])
  }

  // ---- the operations on the books ----

  function Touch(b: Books, id: string): Books {
    b.(tick := b.tick + 1, access := b.access[id := b.tick + 1])
  }

  function Remove(b: Books, id: string): Books {
    b.(sessions := b.sessions - {id},
       used := if id in b.sessions then SatSub(b.used, b.sessions[id].capacity) else b.used,
       access := b.access - {id})
  }

  predicate Fits(used: nat, need: nat, limit: nat) {
    SatAdd(used, need) <= limit
  }

  /** The dead session accessed longest ago. */
  predicate IsOldestDead(b: Books, id: string) {
    && id in b.sessions && !b.sessions[id].alive && id in b.access
    && forall k :: k in b.sessions && !b.sessions[k].alive && k in b.access ==> b.access[id] <= b.access[k]
  }

  lemma {:induction false} OldestExists(b: Books, among: set<string>)
    requires among != {} && forall k :: k in among ==> k in b.access
    ensures exists k :: k in among && forall j :: j in among ==> b.access[k] <= b.access[j]
    decreases |among|
  {
    var k :| k in among;
    if among == {k} {
    } else {
      OldestExists(b, among - {k});
      var m :| m in among - {k} && forall j :: j in among - {k} ==> b.access[m] <= b.access[j];
      var best := if b.access[m] <= b.access[k] then m else k;
      assert forall j :: j in among ==> j == k || j in among - {k};
      assert best in among && forall j :: j in among ==> b.access[best] <= b.access[j];
    }
  }

  ghost function OldestDead(b: Books): (id: string)
    requires b.access.Keys == b.sessions.Keys && HasDead(b.sessions)
    ensures IsOldestDead(b, id)
  {
    var dead := set k | k in b.sessions && !b.sessions[k].alive;
    assert dead != {} by {
      var k :| k in b.sessions && !b.sessions[k].alive;
      assert k in dead;
    }
    OldestExists(b, dead);
    var id :| id in dead && forall j :: j in dead ==> b.access[id] <= b.access[j];
    id
  }

  /** Evict the oldest dead session until `need` fits or none is left. */
  ghost function Evicted(b: Books, need: nat, limit: nat): (e: Books)
    requires b.access.Keys == b.sessions.Keys
    ensures e.access.Keys == e.sessions.Keys
    decreases |b.sessions|
  {
    if Fits(b.used, need, limit) || !HasDead(b.sessions) then b
    else Evicted(Remove(b, OldestDead(b)), need, limit)
  }

  ghost function AfterCreate(b: Books, spec: Spec, limit: nat, spawned: bool): (r: (Books, CreateOutcome))
    requires b.access.Keys == b.sessions.Keys
  {
    if spec.id in b.sessions then
      if b.sessions[spec.id].fingerprint == spec.fingerprint then (Touch(b, spec.id), Idempotent) else (b, Exists)
    else
      var e := Evicted(b, spec.capacity, limit);
      if !Fits(e.used, spec.capacity, limit) then (e, MemoryLimit)
      else if !spawned then (e, SpawnFailed)
      else
        (Touch(e.(sessions := e.sessions[spec.id := Session(spec.fingerprint, spec.capacity, true)],
                  used := SatAdd(e.used, spec.capacity)), spec.id), Created)
  }

  function AfterPurge(b: Books, id: string): (Books, PurgeOutcome) {
    if id !in b.sessions then (b, Unknown)
    else if b.sessions[id].alive then (b, Alive)
    else (Remove(b, id), Purged)
  }

  // ---- what each keeps ----

  lemma RemoveKeepsInv(b: Books, limit: nat, id: string)
    requires Inv(b, limit) && id in b.sessions
    ensures Inv(Remove(b, id), limit)
    ensures b.used == Remove(b, id).used + b.sessions[id].capacity
  {
    TotalWithout(b.sessions, id);
  }

  lemma TouchKeepsInv(b: Books, limit: nat, id: string)
    requires Inv(b, limit) && id in b.sessions
    ensures Inv(Touch(b, id), limit)
  {
    assert b.access[id := b.tick + 1].Keys == b.access.Keys;
  }

  lemma {:induction false} EvictedKeepsInv(b: Books, need: nat, limit: nat)
    requires Inv(b, limit)
    ensures Inv(Evicted(b, need, limit), limit)
    decreases |b.sessions|
  {
    if !Fits(b.used, need, limit) && HasDead(b.sessions) {
      RemoveKeepsInv(b, limit, OldestDead(b));
      EvictedKeepsInv(Remove(b, OldestDead(b)), need, limit);
    }
  }

  lemma InsertKeepsInv(b: Books, limit: nat, id: string, s: Session)
    requires Inv(b, limit) && id !in b.sessions && b.used + s.capacity <= limit
    ensures Inv(Touch(b.(sessions := b.sessions[id := s], used := b.used + s.capacity), id), limit)
  {
    TotalWith(b.sessions, id, s);
  }

  // ---- eviction ----

  lemma LiveAreSome(m: map<string, Session>)
    ensures Total(Live(m)) <= Total(m)
    ensures !HasDead(m) ==> Live(m) == m
    decreases |m|
  {
    if m != map[] {
      var k :| k in m;
      TotalWithout(m, k);
      LiveAreSome(m - {k});
      if m[k].alive {
        TotalWithout(Live(m), k);
        assert Live(m) - {k} == Live(m - {k});
      } else {
        assert Live(m) == Live(m - {k});
      }
    }
  }

  lemma {:induction false} EvictionOnlyRemoves(b: Books, need: nat, limit: nat)
    requires Inv(b, limit)
    ensures var e := Evicted(b, need, limit);
            && e.tick == b.tick
            && (forall k :: k in e.sessions ==>
                   k in b.sessions && e.sessions[k] == b.sessions[k] && e.access[k] == b.access[k])
            && (forall k :: k in b.sessions && k !in e.sessions ==> !b.sessions[k].alive)
    decreases |b.sessions|
  {
    if !Fits(b.used, need, limit) && HasDead(b.sessions) {
      RemoveKeepsInv(b, limit, OldestDead(b));
      EvictionOnlyRemoves(Remove(b, OldestDead(b)), need, limit);
    }
  }

  lemma EvictionKeepsLive(b: Books, need: nat, limit: nat)
    requires Inv(b, limit)
    ensures Live(Evicted(b, need, limit).sessions) == Live(b.sessions)
  {
    EvictionOnlyRemoves(b, need, limit);
  }

  lemma {:induction false} EvictionEndsWithRoomOrNoDead(b: Books, need: nat, limit: nat)
    requires Inv(b, limit)
    ensures var e := Evicted(b, need, limit); Fits(e.used, need, limit) || !HasDead(e.sessions)
    decreases |b.sessions|
  {
    if !Fits(b.used, need, limit) && HasDead(b.sessions) {
      RemoveKeepsInv(b, limit, OldestDead(b));
      EvictionEndsWithRoomOrNoDead(Remove(b, OldestDead(b)), need, limit);
    }
  }

  /** Admission succeeds exactly when the live rings alone leave room, and never touches a live session. */
  lemma AdmitsIffLiveRingsLeaveRoom(b: Books, need: nat, limit: nat)
    requires Inv(b, limit)
    ensures var e := Evicted(b, need, limit);
            && (Fits(e.used, need, limit) <==> Total(Live(b.sessions)) + need <= limit)
            && Live(e.sessions) == Live(b.sessions)
  {
    var e := Evicted(b, need, limit);
    EvictionKeepsLive(b, need, limit);
    EvictionEndsWithRoomOrNoDead(b, need, limit);
    EvictedKeepsInv(b, need, limit);
    LiveAreSome(e.sessions);
  }

  /** Everything evicted was dead and was accessed before every dead session that is kept. */
  lemma {:induction false} EvictsInLruOrder(b: Books, need: nat, limit: nat)
    requires Inv(b, limit)
    ensures var e := Evicted(b, need, limit);
            && (forall j, k | j in b.sessions && j !in e.sessions && k in e.sessions ::
                  !e.sessions[k].alive ==> k in b.access && b.access[j] < b.access[k])
    decreases |b.sessions|
  {
    if !Fits(b.used, need, limit) && HasDead(b.sessions) {
      var id := OldestDead(b);
      var b' := Remove(b, id);
      var e := Evicted(b', need, limit);
      RemoveKeepsInv(b, limit, id);
      EvictsInLruOrder(b', need, limit);
      EvictionOnlyRemoves(b', need, limit);
      forall j, k | j in b.sessions && j !in e.sessions && k in e.sessions && !e.sessions[k].alive
        ensures k in b.access && b.access[j] < b.access[k]
      {
        assert k in b'.sessions && b'.access[k] == b.access[k] && k != id;
      }
    }
  }

  lemma EvictionStarts(b: Books, need: nat, limit: nat)
    requires Inv(b, limit) && Evicted(b, need, limit) != b
    ensures !Fits(b.used, need, limit) && HasDead(b.sessions)
    ensures OldestDead(b) !in Evicted(b, need, limit).sessions
  {
    RemoveKeepsInv(b, limit, OldestDead(b));
    EvictionOnlyRemoves(Remove(b, OldestDead(b)), need, limit);
  }

  lemma NextEvictedIsLater(b: Books, need: nat, limit: nat)
    requires Inv(b, limit) && HasDead(b.sessions)
    requires Evicted(Remove(b, OldestDead(b)), need, limit) != Remove(b, OldestDead(b))
    ensures var b' := Remove(b, OldestDead(b));
            && Inv(b', limit) && HasDead(b'.sessions)
            && OldestDead(b') !in Evicted(b', need, limit).sessions
            && b.access[OldestDead(b)] < b.access[OldestDead(b')]
  {
    RemoveKeepsInv(b, limit, OldestDead(b));
    EvictionStarts(Remove(b, OldestDead(b)), need, limit);
  }

  /** No more is evicted than needed: with the last one evicted back, it would still not fit. */
  lemma {:induction false} EvictsNoMoreThanNeeded(b: Books, need: nat, limit: nat, last: string)
    requires Inv(b, limit)
    requires var e := Evicted(b, need, limit);
             && last in b.sessions && last !in e.sessions
             && forall k :: k in b.sessions && k !in e.sessions ==> b.access[k] <= b.access[last]
    ensures Evicted(b, need, limit).used + b.sessions[last].capacity + need > limit
    decreases |b.sessions|
  {
    EvictionStarts(b, need, limit);
    var b' := Remove(b, OldestDead(b));
    RemoveKeepsInv(b, limit, OldestDead(b));
    if last != OldestDead(b) {
      assert Evicted(b, need, limit) == Evicted(b', need, limit);
      EvictsNoMoreThanNeeded(b', need, limit, last);
    } else if Evicted(b', need, limit) != b' {
      NextEvictedIsLater(b, need, limit);
      assert false;
    }
  }

  // ---- runs of the registry ----

  /** `Exit` is a session's child ending, which its reader thread records without the registry's lock. */
  datatype Op = Create(spec: Spec, spawned: bool) | Get(id: string) | Purge(id: string) | Exit(id: string)

  ghost function AfterOp(b: Books, op: Op, limit: nat): (r: Books)
    requires b.access.Keys == b.sessions.Keys
    ensures r.access.Keys == r.sessions.Keys
  {
    match op
    case Create(spec, spawned) => AfterCreate(b, spec, limit, spawned).0
    case Get(id) => if id in b.sessions then Touch(b, id) else b
    case Purge(id) => AfterPurge(b, id).0
    case Exit(id) => if id in b.sessions then b.(sessions := b.sessions[id := b.sessions[id].(alive := false)]) else b
  }

  lemma DyingKeepsTotal(m: map<string, Session>, id: string)
    requires id in m
    ensures Total(m[id := m[id].(alive := false)]) == Total(m)
  {
    TotalWithout(m, id);
    TotalWithout(m[id := m[id].(alive := false)], id);
    assert m[id := m[id].(alive := false)] - {id} == m - {id};
  }

  lemma CreateKeepsInv(b: Books, limit: nat, spec: Spec, spawned: bool)
    requires Inv(b, limit)
    ensures Inv(AfterCreate(b, spec, limit, spawned).0, limit)
  {
    if spec.id in b.sessions {
      TouchKeepsInv(b, limit, spec.id);
    } else {
      var e := Evicted(b, spec.capacity, limit);
      EvictedKeepsInv(b, spec.capacity, limit);
      EvictionOnlyRemoves(b, spec.capacity, limit);
      if Fits(e.used, spec.capacity, limit) {
        InsertKeepsInv(e, limit, spec.id, Session(spec.fingerprint, spec.capacity, true));
      }
    }
  }

  lemma OpKeepsInv(b: Books, op: Op, limit: nat)
    requires Inv(b, limit)
    ensures Inv(AfterOp(b, op, limit), limit)
  {
    match op {
      case Create(spec, spawned) => CreateKeepsInv(b, limit, spec, spawned);
      case Get(id) => if id in b.sessions { TouchKeepsInv(b, limit, id); }
      case Purge(id) => if id in b.sessions { RemoveKeepsInv(b, limit, id); }
      case Exit(id) => if id in b.sessions { DyingKeepsTotal(b.sessions, id); }
    }
  }

  /** The books after a history of operations on an empty registry. */
  ghost function AfterOps(ops: seq<Op>, limit: nat): (b: Books)
    ensures b.access.Keys == b.sessions.Keys
  {
    if ops == [] then Books(map[], 0, 0, map[])
    else AfterOp(AfterOps(ops[..|ops| - 1], limit), ops[|ops| - 1], limit)
  }

  /**
   After any operations, failed spawns and exits included, the memory accounted is
   exactly the sum of the rings held and within the limit, every session has an
   access tick, and no two ticks are equal, so that LRU order is total.
   */
  lemma {:induction false} EveryRunKeepsInv(ops: seq<Op>, limit: nat)
    requires limit < U64_MAX
    ensures Inv(AfterOps(ops, limit), limit)
  {
    if ops != [] {
      EveryRunKeepsInv(ops[..|ops| - 1], limit);
      OpKeepsInv(AfterOps(ops[..|ops| - 1], limit), ops[|ops| - 1], limit);
    }
  }

  /** The session was used after every other. */
  predicate IsNewest(b: Books, id: string) {
    id in b.access && forall k :: k in b.access && k != id ==> b.access[k] < b.access[id]
  }

  lemma TouchMakesNewest(b: Books, limit: nat, id: string)
    requires Inv(b, limit) && id in b.sessions
    ensures IsNewest(Touch(b, id), id) && Touch(b, id).sessions == b.sessions && Touch(b, id).used == b.used
    ensures forall k :: k in b.sessions && k != id ==> Touch(b, id).access[k] == b.access[k]
  {
  }

  /**
   A get of a known session makes it the last to be evicted and changes nothing else; one of an
   unknown id changes nothing.
   */
  lemma GetMeans(b: Books, id: string, limit: nat)
    requires Inv(b, limit)
    ensures var r := AfterOp(b, Get(id), limit);
            && r.sessions == b.sessions && r.used == b.used
            && (id in b.sessions ==> IsNewest(r, id))
            && (forall k :: k in b.sessions && k != id ==> r.access[k] == b.access[k])
            && (id !in b.sessions ==> r == b)
  {
    if id in b.sessions {
      TouchMakesNewest(b, limit, id);
    }
  }

  /** A purge forgets exactly a dead session, with its bytes. */
  lemma PurgeMeans(b: Books, id: string, limit: nat)
    requires Inv(b, limit)
    ensures var (r, outcome) := AfterPurge(b, id);
            && (outcome == Unknown <==> id !in b.sessions)
            && (outcome == PurgeOutcome.Alive <==> id in b.sessions && b.sessions[id].alive)
            && (outcome != Purged ==> r == b)
            && (outcome == Purged ==>
                  && id !in r.sessions && r.sessions == b.sessions - {id} && r.access == b.access - {id}
                  && r.used + b.sessions[id].capacity == b.used)
            && Live(r.sessions) == Live(b.sessions)
  {
    if id in b.sessions {
      RemoveKeepsInv(b, limit, id);
    }
  }

  /** A child's end makes its session one that may be evicted or purged, and touches nothing else. */
  lemma ExitMeans(b: Books, id: string, limit: nat)
    requires Inv(b, limit)
    ensures var r := AfterOp(b, Exit(id), limit);
            && r.used == b.used && r.tick == b.tick && r.access == b.access && r.sessions.Keys == b.sessions.Keys
            && (id in r.sessions ==> r.sessions[id] == b.sessions[id].(alive := false))
            && (forall k :: k in b.sessions && k != id ==> r.sessions[k] == b.sessions[k])
  {
  }

  /** What a create promises whichever way it ends. */
  lemma CreateMeans(b: Books, spec: Spec, limit: nat, spawned: bool)
    requires Inv(b, limit)
    ensures var (r, outcome) := AfterCreate(b, spec, limit, spawned);
            && (outcome == MemoryLimit <==> spec.id !in b.sessions && Total(Live(b.sessions)) + spec.capacity > limit)
            && (outcome == Created ==>
                   Live(r.sessions) == Live(b.sessions)[spec.id := Session(spec.fingerprint, spec.capacity, true)])
            && (outcome != Created ==> Live(r.sessions) == Live(b.sessions))
            && (outcome == Idempotent <==>
                  spec.id in b.sessions && b.sessions[spec.id].fingerprint == spec.fingerprint)
            && (outcome == Exists <==>
                  spec.id in b.sessions && b.sessions[spec.id].fingerprint != spec.fingerprint)
            && (outcome == SpawnFailed <==>
                  spec.id !in b.sessions && Total(Live(b.sessions)) + spec.capacity <= limit && !spawned)
            && (outcome == Exists ==> r == b)
            && (outcome == Idempotent ==> r.sessions == b.sessions && r.used == b.used && IsNewest(r, spec.id))
            && (outcome == Created ==> IsNewest(r, spec.id))
            && (outcome == MemoryLimit || outcome == SpawnFailed ==> r == Evicted(b, spec.capacity, limit))
  {
    if spec.id in b.sessions {
      TouchMakesNewest(b, limit, spec.id);
    } else {
      CreatedIsNewest(b, spec, limit, spawned);
      AdmitsIffLiveRingsLeaveRoom(b, spec.capacity, limit);
      LiveWithNew(Evicted(b, spec.capacity, limit).sessions, spec.id, Session(spec.fingerprint, spec.capacity, true));
    }
  }

  lemma CreatedIsNewest(b: Books, spec: Spec, limit: nat, spawned: bool)
    requires Inv(b, limit) && spec.id !in b.sessions
    ensures var (r, outcome) := AfterCreate(b, spec, limit, spawned); outcome == Created ==> IsNewest(r, spec.id)
  {
    EvictedKeepsInv(b, spec.capacity, limit);
    EvictionOnlyRemoves(b, spec.capacity, limit);
  }

  lemma LiveWithNew(m: map<string, Session>, id: string, s: Session)
    requires s.alive
    ensures Live(m[id := s]) == Live(m)[id := s]
  {
  }

  // ---- the one limit at which the saturating sums break ----

  /** `n` creates of the largest ring, under ids of growing length. */
  function Creates(n: nat): (ops: seq<Op>)
    ensures |ops| == n
  {
    if n == 0 then []
    else Creates(n - 1) + [NthCreate(n)]
  }

  lemma UnlimitedCreate(b: Books, spec: Spec)
    requires b.access.Keys == b.sessions.Keys && spec.id !in b.sessions
    ensures var r := AfterOp(b, Create(spec, true), U64_MAX);
            && r.sessions == b.sessions[spec.id := Session(spec.fingerprint, spec.capacity, true)]
            && r.used == SatAdd(b.used, spec.capacity)
  {
    assert Fits(b.used, spec.capacity, U64_MAX);
  }

  function NthCreate(n: nat): Op {
    Create(Spec(seq(n, _ => 's'), 0, RING_MAX_BYTES), true)
  }

  lemma OneMoreCreate(n: nat)
    requires n > 0
    ensures AfterOps(Creates(n), U64_MAX) == AfterOp(AfterOps(Creates(n - 1), U64_MAX), NthCreate(n), U64_MAX)
  {
    assert Creates(n)[..n - 1] == Creates(n - 1);
  }

  /** `n` of those rings held, and their bytes accounted as far as the counter goes. */
  ghost predicate Grown(b: Books, n: nat) {
    && |b.sessions| == n
    && (forall id :: id in b.sessions ==> |id| <= n)
    && Total(b.sessions) == n * RING_MAX_BYTES
    && b.used == Min(n * RING_MAX_BYTES, U64_MAX)
  }

  lemma CreateGrows(b: Books, n: nat)
    requires b.access.Keys == b.sessions.Keys && Grown(b, n)
    ensures Grown(AfterOp(b, NthCreate(n + 1), U64_MAX), n + 1)
  {
    var spec := NthCreate(n + 1).spec;
    assert |spec.id| == n + 1 && spec.id !in b.sessions;
    UnlimitedCreate(b, spec);
    TotalWith(b.sessions, spec.id, Session(0, RING_MAX_BYTES, true));
  }

  lemma {:induction false} UnlimitedCreates(n: nat)
    ensures Grown(AfterOps(Creates(n), U64_MAX), n)
  {
    if n > 0 {
      UnlimitedCreates(n - 1);
      OneMoreCreate(n);
      CreateGrows(AfterOps(Creates(n - 1), U64_MAX), n - 1);
    }
  }

  /**
   At the largest 64-bit limit a run of creates keeps being admitted: from the 2^39th
   on the rings held pass the limit, and the bytes accounted stand still behind them.
   */
  lemma UnlimitedRegistryOverflows(n: nat)
    requires n * RING_MAX_BYTES > U64_MAX
    ensures var b := AfterOps(Creates(n), U64_MAX);
            |b.sessions| == n && Total(b.sessions) > U64_MAX == b.used && Fits(b.used, RING_MAX_BYTES, U64_MAX)
  {
    UnlimitedCreates(n);
  }

  // ---- the registry itself ----

  ghost predicate StrictlyByTick(s: seq<(nat, string)>) {
    forall i, j :: 0 <= i < j < |s| ==> s[i].0 < s[j].0
  }

  function InsertByTick(x: (nat, string), s: seq<(nat, string)>): (r: seq<(nat, string)>)
    requires StrictlyByTick(s) && forall y :: y in s ==> y.0 != x.0
    ensures StrictlyByTick(r) && forall y :: y in r <==> y == x || y in s
  {
    if s == [] || x.0 < s[0].0 then [x] + s
    else
      assert forall y :: y in s <==> y == s[0] || y in s[1..];
      var rest := InsertByTick(x, s[1..]);
      assert forall i :: 0 <= i < |rest| ==> rest[i] in rest;
      assert forall i :: 0 <= i < |s[1..]| ==> s[1..][i] == s[i + 1];
      assert forall y :: y in [s[0]] + rest <==> y == s[0] || y in rest;
      [s[0]] + rest
  }

  /** `sort_by_key` on ticks, which are distinct. */
  function SortByTick(s: seq<(nat, string)>): (r: seq<(nat, string)>)
    requires forall i, j :: 0 <= i < j < |s| ==> s[i].0 != s[j].0
    ensures StrictlyByTick(r) && forall y :: y in r <==> y in s
  {
    if s == [] then []
    else
      assert forall y :: y in s <==> y == s[0] || y in s[1..];
      InsertByTick(s[0], SortByTick(s[1..]))
  }

  /** All dead sessions with their ticks, oldest first. */
  ghost predicate LruList(b: Books, l: seq<(nat, string)>) {
    && b.access.Keys == b.sessions.Keys
    && StrictlyByTick(l)
    && (forall x :: x in l <==> x.1 in b.sessions && !b.sessions[x.1].alive && x.0 == b.access[x.1])
  }

  lemma RestIsOthers(l: seq<(nat, string)>)
    requires l != [] && StrictlyByTick(l)
    ensures forall x :: x in l[1..] <==> x in l && x != l[0]
  {
  }

  lemma LruHead(b: Books, l: seq<(nat, string)>, limit: nat)
    requires Inv(b, limit) && LruList(b, l)
    ensures HasDead(b.sessions) <==> l != []
    ensures l != [] ==> OldestDead(b) == l[0].1 && LruList(Remove(b, l[0].1), l[1..])
  {
    if HasDead(b.sessions) {
      var id := OldestDead(b);
      assert (b.access[id], id) in l;
    }
    if l != [] {
      assert l[0] in l;
      var id := OldestDead(b);
      assert (b.access[id], id) in l;
      RestIsOthers(l);
    }
  }

  class Registry {
    const limit: nat
    var sessions: map<string, Session>
    var used: nat
    var tick: nat
    var access: map<string, nat>

    ghost function Now(): Books
      reads this
    {
      Books(sessions, used, tick, access)
    }

    ghost predicate Valid()
      reads this
    {
      Inv(Now(), limit)
    }

    constructor (limit: nat)
      requires limit < U64_MAX
      ensures Valid() && this.limit == limit && Now() == Books(map[], 0, 0, map[])
    {
      this.limit := limit;
      sessions, used, tick, access := map[], 0, 0, map[];
    }

    method Get(id: string) returns (s: Option<Session>)
      requires Valid()
      modifies this
      ensures Valid() && Now() == AfterOp(old(Now()), Op.Get(id), limit)
      ensures s == if id in old(sessions) then Some(old(sessions)[id]) else None
      ensures sessions == old(sessions) && (s.Some? ==> IsNewest(Now(), id))
    {
      OpKeepsInv(Now(), Op.Get(id), limit);
      GetMeans(Now(), id, limit);
      if id !in sessions {
        return None;
      }
      s := Some(sessions[id]);
      MarkUsed(id);
    }

    /** Create, or return, a session; `spawned` is whether the child could be started. */
    method Create(spec: Spec, spawned: bool) returns (outcome: CreateOutcome)
      requires Valid()
      modifies this
      ensures Valid() && (Now(), outcome) == AfterCreate(old(Now()), spec, limit, spawned)
      ensures outcome == Idempotent <==>
                spec.id in old(sessions) && old(sessions)[spec.id].fingerprint == spec.fingerprint
      ensures outcome == Exists <==>
                spec.id in old(sessions) && old(sessions)[spec.id].fingerprint != spec.fingerprint
      ensures outcome == Created || outcome == Idempotent ==> IsNewest(Now(), spec.id)
    {
      CreateMeans(Now(), spec, limit, spawned);
      CreateKeepsInv(Now(), limit, spec, spawned);
      if spec.id in sessions {
        if sessions[spec.id].fingerprint == spec.fingerprint {
          MarkUsed(spec.id);
          return Idempotent;
        }
        return Exists;
      }
      outcome := CreateNew(spec, spawned);
    }

    /** Admit, start and enter a session under a new id. */
    method CreateNew(spec: Spec, spawned: bool) returns (outcome: CreateOutcome)
      requires Valid() && spec.id !in sessions
      modifies this
      ensures Valid() && (Now(), outcome) == AfterCreate(old(Now()), spec, limit, spawned)
    {
      CreateKeepsInv(Now(), limit, spec, spawned);
      var ok := Admit(spec.capacity);
      if !ok {
        return MemoryLimit;
      }
      used := SatAdd(used, spec.capacity);
      if !spawned {
        used := SatSub(used, spec.capacity);
        return SpawnFailed;
      }
      sessions := sessions[spec.id := Session(spec.fingerprint, spec.capacity, true)];
      MarkUsed(spec.id);
      outcome := Created;
    }

    method Purge(id: string) returns (outcome: PurgeOutcome)
      requires Valid()
      modifies this
      ensures Valid() && (Now(), outcome) == AfterPurge(old(Now()), id)
      ensures sessions ==
              if id in old(sessions) && !old(sessions)[id].alive then old(sessions) - {id} else old(sessions)
    {
      OpKeepsInv(Now(), Op.Purge(id), limit);
      if id !in sessions {
        return Unknown;
      }
      if sessions[id].alive {
        return PurgeOutcome.Alive;
      }
      Drop(id);
      outcome := Purged;
    }

    /** Make room for `need` bytes by evicting dead sessions, oldest first. */
    method Admit(need: nat) returns (ok: bool)
      requires Valid()
      modifies this
      ensures Valid() && Now() == Evicted(old(Now()), need, limit)
      ensures ok == Fits(used, need, limit)
      ensures ok <==> Total(Live(old(sessions))) + need <= limit
    {
      AdmitsIffLiveRingsLeaveRoom(Now(), need, limit);
      if SatAdd(used, need) <= limit {
        return true;
      }
      var dead := OldestFirst();
      var i := 0;
      while i < |dead|
        invariant i <= |dead| && Valid() && LruList(Now(), dead[i..])
        invariant Evicted(Now(), need, limit) == Evicted(old(Now()), need, limit)
      {
        LruHead(Now(), dead[i..], limit);
        if SatAdd(used, need) <= limit {
          break;
        }
        RemoveKeepsInv(Now(), limit, dead[i].1);
        Drop(dead[i].1);
        assert dead[i..][1..] == dead[i + 1..];
        i := i + 1;
      }
      LruHead(Now(), dead[i..], limit);
      ok := SatAdd(used, need) <= limit;
    }

    method OldestFirst() returns (dead: seq<(nat, string)>)
      requires Valid()
      ensures LruList(Now(), dead)
    {
      dead := [];
      var left := sessions.Keys;
      while left != {}
        invariant left <= sessions.Keys
        invariant forall x :: x in dead <==>
                    x.1 in sessions && x.1 !in left && !sessions[x.1].alive && x.0 == access[x.1]
        invariant forall i, j :: 0 <= i < j < |dead| ==> dead[i].1 != dead[j].1
        decreases left
      {
        var id :| id in left;
        left := left - {id};
        if !sessions[id].alive {
          assert forall i :: 0 <= i < |dead| ==> dead[i] in dead && dead[i].1 != id;
          dead := dead + [(access[id], id)];
        }
      }
      assert forall i :: 0 <= i < |dead| ==> dead[i] in dead && dead[i].0 == access[dead[i].1];
      dead := SortByTick(dead);
    }

    method MarkUsed(id: string)
      modifies this`tick, this`access
      ensures Now() == Touch(old(Now()), id)
    {
      tick := tick + 1;
      access := access[id := tick];
    }

    method Drop(id: string)
      modifies this
      ensures Now() == Remove(old(Now()), id)
    {
      if id in sessions {
        used := SatSub(used, sessions[id].capacity);
        sessions := sessions - {id};
      }
      access := access - {id};
    }
  }
}
