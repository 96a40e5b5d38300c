/**
 The sessions table as its lifecycle writes see it: the clock of how long a session
 has been in its present state, and the one-owner rule for an agent's own
 conversation id. A right-hand side of an UPDATE reads the row as it was.
 */
module StateClock {
  import opened Base
  import Text

  datatype Status = Starting | Running | Exited | Failed | Stopped | Archived | Indeterminate
  datatype Attention = NoAttention | Activity | Idle | LikelyBlocked | ApprovalNeeded | Error | FailedAttention

  function StatusText(s: Status): string {
    match s
    case Starting => "starting"
    case Running => "running"
    case Exited => "exited"
    case Failed => "failed"
    case Stopped => "stopped"
    case Archived => "archived"
    case Indeterminate => "indeterminate"
  }

  function AttentionText(a: Attention): string {
    match a
    case NoAttention => "none"
    case Activity => "activity"
    case Idle => "idle"
    case LikelyBlocked => "likely_blocked"
    case ApprovalNeeded => "approval_needed"
    case Error => "error"
    case FailedAttention => "failed"
  }

  /** `status || '/' || attention_state`. */
  function Kind(s: Status, a: Attention): string {
    StatusText(s) + "/" + AttentionText(a)
  }

  datatype Row = Row(
    status: Status, exitCode: Option<int>, attention: Attention, reason: Option<string>,
    lastEventSeq: nat, lastActivityAt: int, updatedAt: int, stateSince: int, stateKind: string,
    plugin: string, nativeId: Option<string>)

  datatype Write =
    | UpdateStatus(status: Status, exitCode: Option<int>, at: int)
    | UpdateActivity(eventSeq: nat, at: int, attention: Attention, reason: Option<string>)
    | SetAttention(attention: Attention, reason: Option<string>, at: int)
    | View(at: int)

  function Since(r: Row, kind: string, at: int): int {
    if r.stateKind == kind then r.stateSince else at
  }

  /** The row after one write. */
  function Apply(r: Row, w: Write): Row {
    match w
    case UpdateStatus(status, code, at) =>
      var kind := Kind(status, r.attention);
      r.(status := status, exitCode := code, updatedAt := at, stateSince := Since(r, kind, at), stateKind := kind)
    case UpdateActivity(n, at, attention, reason) =>
      var kind := Kind(r.status, attention);
      r.(lastEventSeq := n, lastActivityAt := at, updatedAt := at, attention := attention, reason := reason,
         stateSince := Since(r, kind, at), stateKind := kind)
    case SetAttention(attention, reason, at) =>
      var kind := Kind(r.status, attention);
      r.(attention := attention, reason := reason, updatedAt := at, stateSince := Since(r, kind, at), stateKind := kind)
    case View(at) => r.(attention := NoAttention, reason := None, updatedAt := at)
  }

  /** What each write is for arrives in the row, and every column it does not name stays. */
  lemma WritesMean(r: Row, w: Write)
    ensures var r' := Apply(r, w);
            && r'.updatedAt == w.at && r'.plugin == r.plugin && r'.nativeId == r.nativeId
            && r'.status == (if w.UpdateStatus? then w.status else r.status)
            && r'.exitCode == (if w.UpdateStatus? then w.exitCode else r.exitCode)
            && r'.attention == (if w.UpdateStatus? then r.attention else if w.View? then NoAttention else w.attention)
            && r'.reason == (if w.UpdateStatus? then r.reason else if w.View? then None else w.reason)
            && r'.lastEventSeq == (if w.UpdateActivity? then w.eventSeq else r.lastEventSeq)
            && r'.lastActivityAt == (if w.UpdateActivity? then w.at else r.lastActivityAt)
            && (w.View? ==> r'.stateSince == r.stateSince && r'.stateKind == r.stateKind)
            && (!w.View? ==> r'.stateKind == Kind(r'.status, r'.attention))
  {
  }

  function ApplyAll(r: Row, ws: seq<Write>): Row
    decreases |ws|
  {
    if ws == [] then r else ApplyAll(Apply(r, ws[0]), ws[1..])
  }

  // ---- the clock ----

  /** A state and when it was written. */
  type Mark = ((Status, Attention), int)

  /**
   The state each clock-bearing write leaves, with its time: from status and attention alone, not
   from the clock's columns.
   */
  function Marks(s: Status, a: Attention, ws: seq<Write>): seq<Mark>
    decreases |ws|
  {
    if ws == [] then []
    else
      match ws[0]
      case UpdateStatus(status, _, at) => [((status, a), at)] + Marks(status, a, ws[1..])
      case UpdateActivity(_, at, attention, _) => [((s, attention), at)] + Marks(s, attention, ws[1..])
      case SetAttention(attention, _, at) => [((s, attention), at)] + Marks(s, attention, ws[1..])
      case View(_) => Marks(s, NoAttention, ws[1..])
  }

  /** Index of the first mark of the last unbroken run of equal states. */
  function RunStart(marks: seq<Mark>): (j: nat)
    requires marks != []
    ensures j < |marks|
    ensures forall i :: j <= i < |marks| ==> marks[i].0 == marks[|marks| - 1].0
    ensures j > 0 ==> marks[j - 1].0 != marks[|marks| - 1].0
  {
    if |marks| == 1 then 0
    else
      var j := RunStart(marks[1..]);
      assert forall i :: 0 <= i < |marks| - 1 ==> marks[1..][i] == marks[i + 1];
      if j == 0 && marks[0].0 == marks[1].0 then 0 else j + 1
  }

  lemma TextsAreDistinct(s: Status, a: Attention)
    ensures '/' !in StatusText(s)
    ensures forall s' :: StatusText(s') == StatusText(s) ==> s' == s
    ensures forall a' :: AttentionText(a') == AttentionText(a) ==> a' == a
  {
    forall s' | StatusText(s') == StatusText(s)
      ensures s' == s
    {
      assert |StatusText(s')| == |StatusText(s)| && StatusText(s')[0] == StatusText(s)[0]
             && StatusText(s')[1] == StatusText(s)[1];
    }
    forall a' | AttentionText(a') == AttentionText(a)
      ensures a' == a
    {
      assert |AttentionText(a')| == |AttentionText(a)| && AttentionText(a')[0] == AttentionText(a)[0];
    }
  }

  /** The text of a state says which state it is. */
  lemma KindIsInjective(s: Status, a: Attention, s': Status, a': Attention)
    ensures Kind(s, a) == Kind(s', a') <==> (s, a) == (s', a')
  {
    if Kind(s, a) == Kind(s', a') {
      TextsAreDistinct(s, a);
      TextsAreDistinct(s', a');
      Text.FirstFieldIsDetermined(StatusText(s), AttentionText(a), StatusText(s'), AttentionText(a'), '/');
    }
  }

  lemma OneWriteMarks(r: Row, s: Status, a: Attention, w: Write)
    requires r.stateKind == Kind(s, a) && !w.View?
    ensures var r' := Apply(r, w);
            && r'.stateKind == Kind(r'.status, r'.attention)
            && r'.stateSince == if (s, a) == (r'.status, r'.attention) then r.stateSince else w.at
  {
    KindIsInjective(s, a, Apply(r, w).status, Apply(r, w).attention);
  }

  lemma MarksCons(r: Row, ws: seq<Write>)
    requires ws != []
    ensures var r' := Apply(r, ws[0]);
            Marks(r.status, r.attention, ws)
            == (if ws[0].View? then [] else [((r'.status, r'.attention), ws[0].at)])
               + Marks(r'.status, r'.attention, ws[1..])
  {
  }

  /** What the clock's columns are, given the marks since the row's state was last written. */
  ghost predicate ClockShows(r: Row, marks: seq<Mark>)
    requires marks != []
  {
    var last := marks[|marks| - 1].0;
    r.stateSince == marks[RunStart(marks)].1 && r.stateKind == Kind(last.0, last.1)
  }

  /** A further mark in front is folded away if it is the same state, and before the run if not. */
  lemma ClockPrepends(r: Row, x: Mark, y: Mark, rest: seq<Mark>)
    requires ClockShows(r, [(y.0, if x.0 == y.0 then x.1 else y.1)] + rest)
    ensures ClockShows(r, [x] + ([y] + rest))
  {
    MergeRun(x, y, rest);
    Regroup([x], [y], rest);
    assert [x] + [y] == [x, y];
  }

  /**
   From a freshly inserted row, after any writes the clock shows the time of the
   first write of the current unbroken run of writes leaving the same state.
   Views are no part of it.
   */
  lemma {:induction false} ClockIsStartOfRun(r: Row, s: Status, a: Attention, ws: seq<Write>)
    requires r.stateKind == Kind(s, a)
    ensures ClockShows(ApplyAll(r, ws), [((s, a), r.stateSince)] + Marks(r.status, r.attention, ws))
    decreases |ws|
  {
    var first: Mark := ((s, a), r.stateSince);
    if ws == [] {
      assert [first] + [] == [first];
    } else {
      var r' := Apply(r, ws[0]);
      MarksCons(r, ws);
      if ws[0].View? {
        ClockIsStartOfRun(r', s, a, ws[1..]);
        assert [] + Marks(r'.status, r'.attention, ws[1..]) == Marks(r'.status, r'.attention, ws[1..]);
      } else {
        var next, rest := (r'.status, r'.attention), Marks(r'.status, r'.attention, ws[1..]);
        OneWriteMarks(r, s, a, ws[0]);
        ClockIsStartOfRun(r', next.0, next.1, ws[1..]);
        ClockPrepends(ApplyAll(r', ws[1..]), first, (next, ws[0].at), rest);
      }
    }
  }

  /** Folding a first mark into the second when they are the same state keeps where the last run starts. */
  lemma MergeRun(x: Mark, y: Mark, rest: seq<Mark>)
    ensures var marks := [x, y] + rest;
            var folded := [(y.0, if x.0 == y.0 then x.1 else y.1)] + rest;
            marks[RunStart(marks)].1 == folded[RunStart(folded)].1 && marks[|marks| - 1].0 == folded[|folded| - 1].0
  {
    var marks := [x, y] + rest;
    var folded := [(y.0, if x.0 == y.0 then x.1 else y.1)] + rest;
    assert forall i :: 0 < i < |folded| ==> folded[i] == marks[i + 1];
    RunStartIsUnique(marks, if RunStart(folded) == 0 && x.0 == y.0 then 0 else RunStart(folded) + 1);
  }

  lemma RunStartIsUnique(marks: seq<Mark>, j: nat)
    requires j < |marks| && forall i :: j <= i < |marks| ==> marks[i].0 == marks[|marks| - 1].0
    requires j > 0 ==> marks[j - 1].0 != marks[|marks| - 1].0
    ensures RunStart(marks) == j
  {
  }

  // ---- viewing a session is not a change of state ----

  function WithoutViews(ws: seq<Write>): seq<Write>
    decreases |ws|
  {
    if ws == [] then [] else if ws[0].View? then WithoutViews(ws[1..]) else [ws[0]] + WithoutViews(ws[1..])
  }

  /** No status is written between a view that cleared a badge (`cleared`: one has) and the next attention write. */
  predicate NoStatusAfterView(a: Attention, cleared: bool, ws: seq<Write>)
    decreases |ws|
  {
    if ws == [] then true
    else
      match ws[0]
      case UpdateStatus(_, _, _) => !cleared && NoStatusAfterView(a, cleared, ws[1..])
      case UpdateActivity(_, _, attention, _) => NoStatusAfterView(attention, false, ws[1..])
      case SetAttention(attention, _, _) => NoStatusAfterView(attention, false, ws[1..])
      case View(_) => NoStatusAfterView(NoAttention, cleared || a != NoAttention, ws[1..])
  }

  predicate SameClock(a: Row, b: Row) {
    a.stateSince == b.stateSince && a.stateKind == b.stateKind
  }

  /** `seen` getting every write and `unseen` all but the views show the same clock throughout. */
  predicate NeverDiffer(seen: Row, unseen: Row, ws: seq<Write>)
    decreases |ws|
  {
    && SameClock(seen, unseen)
    && (ws != [] ==> NeverDiffer(Apply(seen, ws[0]), if ws[0].View? then unseen else Apply(unseen, ws[0]), ws[1..]))
  }

  lemma {:induction false} NeverDifferIff(seen: Row, unseen: Row, cleared: bool, ws: seq<Write>)
    requires seen.status == unseen.status && SameClock(seen, unseen)
    requires if cleared then seen.attention == NoAttention != unseen.attention else seen.attention == unseen.attention
    ensures NeverDiffer(seen, unseen, ws) <==> NoStatusAfterView(seen.attention, cleared, ws)
    decreases |ws|
  {
    if ws != [] {
      var seen' := Apply(seen, ws[0]);
      match ws[0] {
        case View(_) =>
          NeverDifferIff(seen', unseen, cleared || seen.attention != NoAttention, ws[1..]);
        case UpdateStatus(status, _, _) =>
          if cleared {
            KindIsInjective(status, NoAttention, status, unseen.attention);
          } else {
            NeverDifferIff(seen', Apply(unseen, ws[0]), cleared, ws[1..]);
          }
        case _ =>
          NeverDifferIff(seen', Apply(unseen, ws[0]), false, ws[1..]);
      }
    }
  }

  lemma {:induction false} NeverDifferAtTheEnd(seen: Row, unseen: Row, ws: seq<Write>)
    requires NeverDiffer(seen, unseen, ws)
    ensures SameClock(ApplyAll(seen, ws), ApplyAll(unseen, WithoutViews(ws)))
    decreases |ws|
  {
    if ws != [] {
      NeverDifferAtTheEnd(Apply(seen, ws[0]), if ws[0].View? then unseen else Apply(unseen, ws[0]), ws[1..]);
      if !ws[0].View? {
        assert WithoutViews(ws)[1..] == WithoutViews(ws[1..]);
      }
    }
  }

  /**
   Viewing a session never shows in its clock, at any point of a history, if and
   only if no status is written between a view that cleared a badge and the next
   attention write. Erasing every view from such a history changes nothing of the clock.
   */
  lemma ViewsDoNotMoveTheClockIff(r: Row, ws: seq<Write>)
    ensures NeverDiffer(r, r, ws) <==> NoStatusAfterView(r.attention, false, ws)
    ensures NoStatusAfterView(r.attention, false, ws) ==> SameClock(ApplyAll(r, ws), ApplyAll(r, WithoutViews(ws)))
  {
    NeverDifferIff(r, r, false, ws);
    if NeverDiffer(r, r, ws) {
      NeverDifferAtTheEnd(r, r, ws);
    }
  }

  /**
   A status written right after a view leaves the same state and clock as without the view exactly
   when there was no badge.
   */
  lemma StatusAfterViewIff(r: Row, viewedAt: int, w: Write)
    requires w.UpdateStatus?
    ensures var seen, unseen := Apply(Apply(r, View(viewedAt)), w), Apply(r, w);
            (seen.stateKind == unseen.stateKind && seen.stateSince == unseen.stateSince) <==> r.attention == NoAttention
  {
    KindIsInjective(w.status, NoAttention, w.status, r.attention);
  }

  // ---- the agent's own conversation id ----

  /** No two sessions of one plugin are on record with the same conversation. */
  ghost predicate OneOwner(rows: map<string, Row>) {
    forall i, j | i in rows && j in rows && i != j ::
      rows[i].plugin == rows[j].plugin && rows[i].nativeId.Some? ==> rows[i].nativeId != rows[j].nativeId
  }

  predicate Claimed(rows: map<string, Row>, id: string, plugin: string, native: string) {
    exists other :: other in rows && other != id && rows[other].plugin == plugin && rows[other].nativeId == Some(native)
  }

  lemma InsertKeepsOneOwnerIff(rows: map<string, Row>, id: string, r: Row)
    requires OneOwner(rows) && id !in rows
    ensures OneOwner(rows[id := r]) <==> r.nativeId == None || !Claimed(rows, id, r.plugin, r.nativeId.value)
  {
    var after := rows[id := r];
    if r.nativeId.Some? && Claimed(rows, id, r.plugin, r.nativeId.value) {
      var other :| other in rows && other != id && rows[other].plugin == r.plugin && rows[other].nativeId == r.nativeId;
      assert other in after && after[other] == rows[other] && after[id] == r;
    }
  }

  class Sessions {
    var rows: map<string, Row>
    var titles: map<string, string>

    constructor ()
      ensures rows == map[] && titles == map[]
    {
      rows, titles := map[], map[];
    }

    /** False when the id is taken: the INSERT fails. The clock starts at the time and state given. */
    method InsertSession(id: string, r: Row) returns (ok: bool)
      modifies this`rows
      ensures ok == (id !in old(rows))
      ensures rows == if ok then old(rows)[id := r.(stateKind := Kind(r.status, r.attention))] else old(rows)
      ensures ok && old(OneOwner(rows)) ==>
                (OneOwner(rows) <==> r.nativeId == None || !Claimed(old(rows), id, r.plugin, r.nativeId.value))
    {
      if id in rows {
        return false;
      }
      var stored := r.(stateKind := StatusText(r.status) + "/" + AttentionText(r.attention));
      if OneOwner(rows) {
        InsertKeepsOneOwnerIff(rows, id, stored);
      }
      rows := rows[id := stored];
      ok := true;
    }

    method UpdateStatus(id: string, status: Status, exitCode: Option<int>, at: int)
      modifies this`rows
      ensures rows ==
              if id in old(rows) then
                old(rows)[id := Apply(old(rows)[id], Write.UpdateStatus(status, exitCode, at))]
              else old(rows)
    {
      if id in rows {
        var r := rows[id];
        var kind := StatusText(status) + "/" + AttentionText(r.attention);
        var since := if r.stateKind == kind then r.stateSince else at;
        rows := rows[id := r.(status := status, exitCode := exitCode, updatedAt := at,
                              stateSince := since, stateKind := kind)];
      }
    }

    method UpdateActivity(id: string, eventSeq: nat, at: int, attention: Attention, reason: Option<string>)
      modifies this`rows
      ensures rows ==
              if id in old(rows) then
                old(rows)[id := Apply(old(rows)[id], Write.UpdateActivity(eventSeq, at, attention, reason))]
              else old(rows)
    {
      if id in rows {
        var r := rows[id];
        var kind := StatusText(r.status) + "/" + AttentionText(attention);
        var since := if r.stateKind == kind then r.stateSince else at;
        rows := rows[id := r.(lastEventSeq := eventSeq, lastActivityAt := at, updatedAt := at, attention := attention,
                              reason := reason, stateSince := since, stateKind := kind)];
      }
    }

    method SetAttention(id: string, attention: Attention, reason: Option<string>, at: int)
      modifies this`rows
      ensures rows ==
              if id in old(rows) then
                old(rows)[id := Apply(old(rows)[id], Write.SetAttention(attention, reason, at))]
              else old(rows)
    {
      if id in rows {
        var r := rows[id];
        var kind := StatusText(r.status) + "/" + AttentionText(attention);
        var since := if r.stateKind == kind then r.stateSince else at;
        rows := rows[id := r.(attention := attention, reason := reason, updatedAt := at,
                              stateSince := since, stateKind := kind)];
      }
    }

    method ClearAttentionForView(id: string, at: int)
      modifies this`rows
      ensures rows == if id in old(rows) then old(rows)[id := Apply(old(rows)[id], View(at))] else old(rows)
    {
      if id in rows {
        rows := rows[id := rows[id].(attention := NoAttention, reason := None, updatedAt := at)];
      }
    }

    /** Record a conversation once: never over an earlier capture, never one another session has. */
    method SetAgentSessionId(id: string, native: string) returns (done: bool)
      modifies this`rows
      ensures done <==>
                && id in old(rows) && old(rows)[id].nativeId == None
                && !Claimed(old(rows), id, old(rows)[id].plugin, native)
      ensures rows == if done then old(rows)[id := old(rows)[id].(nativeId := Some(native))] else old(rows)
      ensures old(OneOwner(rows)) ==> OneOwner(rows)
    {
      done := false;
      if id in rows && rows[id].nativeId == None && !Claimed(rows, id, rows[id].plugin, native) {
        rows := rows[id := rows[id].(nativeId := Some(native))];
        done := true;
      }
    }

    /** Compare-and-swap of a wrong capture; a title made from the old conversation goes with it. */
    method ReplaceAgentSessionId(id: string, previous: string, replacement: string) returns (done: bool)
      modifies this
      ensures done <==> id in old(rows) && old(rows)[id].nativeId == Some(previous)
                        && !Claimed(old(rows), id, old(rows)[id].plugin, replacement)
      ensures rows == if done then old(rows)[id := old(rows)[id].(nativeId := Some(replacement))] else old(rows)
      ensures titles == if done then old(titles) - {id} else old(titles)
      ensures old(OneOwner(rows)) ==> OneOwner(rows)
    {
      done := false;
      if id in rows && rows[id].nativeId == Some(previous) && !Claimed(rows, id, rows[id].plugin, replacement) {
        rows := rows[id := rows[id].(nativeId := Some(replacement))];
        titles := titles - {id};
        done := true;
      }
    }
  }
}
