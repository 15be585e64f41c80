/** In every run of the action runtime a handler runs at most once, and only behind an
    approval, an accepted allow decision and a dispatch barrier, in that order. */
module ActionAuthority {
  import opened Wrappers
  import Texts
  import opened ActionRuntime

  // ---------- events in order ----------

  /** The events occur in the trace, in this order. */
  ghost predicate InOrder(events: seq<Event>, trace: seq<Event>)
    decreases |trace|
  {
    if events == [] then true
    else if trace == [] then false
    else
      var n, m := |events| - 1, |trace| - 1;
      InOrder(events, trace[..m]) || (events[n] == trace[m] && InOrder(events[..n], trace[..m]))
  }

  lemma InOrderGrows(events: seq<Event>, trace: seq<Event>, e: Event)
    requires InOrder(events, trace)
    ensures InOrder(events, trace + [e])
    ensures InOrder(events + [e], trace + [e])
  {
    assert (trace + [e])[..|trace|] == trace;
    assert (events + [e])[..|events|] == events;
  }

  /** Four events in order have increasing positions. */
  lemma {:induction false} Positions(events: seq<Event>, trace: seq<Event>) returns (at: seq<nat>)
    requires InOrder(events, trace)
    ensures |at| == |events|
    ensures forall i :: 0 <= i < |at| ==> at[i] < |trace| && trace[at[i]] == events[i]
    ensures forall i, j :: 0 <= i < j < |at| ==> at[i] < at[j]
    decreases |trace|
  {
    if events == [] {
      at := [];
    } else {
      var n, m := |events| - 1, |trace| - 1;
      if InOrder(events, trace[..m]) {
        at := Positions(events, trace[..m]);
      } else {
        at := Positions(events[..n], trace[..m]);
        at := at + [m];
      }
    }
  }

  // ---------- what each record and the trace keep ----------

  /** The started evidence names this action, this approval and this decision. */
  ghost predicate Binds(id: string, a: Approval, d: Decision, s: Started) {
    && a.actionId == id && d.actionId == id && s.actionId == id
    && s.approvalId == a.approvalId && s.decisionId == d.decisionId && d.verdict.Allow?
  }

  /** What has happened when an execution is suspended at a point. */
  ghost predicate PointSound(id: string, point: Point, trace: seq<Event>) {
    match point
    case BeforeRequest(a) => a.actionId == id && InOrder([ApprovalHook(id, a)], trace)
    case Deciding(a) => a.actionId == id && InOrder([ApprovalHook(id, a)], trace)
    case Persisting(a, d) =>
      a.actionId == id && d.actionId == id && InOrder([ApprovalHook(id, a), Accepted(id, d)], trace)
    case Dispatching(a, d, s) =>
      Binds(id, a, d, s) && InOrder([ApprovalHook(id, a), Accepted(id, d), DecisionKept(id, d)], trace)
    case _ => true
  }

  ghost predicate Entry(e: Event, id: string) { e.Entered? && e.actionId == id }

  predicate BeforeHandler(point: Point) {
    point.NotExecuted? || point.BeforeRequest? || point.Deciding? || point.FailingClosed?
    || point.Persisting? || point.Dispatching?
  }

  ghost predicate RecordSound(id: string, r: Record, trace: seq<Event>) {
    && r.proposal.actionId == id
    && (r.approval.Some? ==> r.approval.value.actionId == id
                             && InOrder([ApprovalHook(id, r.approval.value)], trace))
    && PointSound(id, r.point, trace)
    && (BeforeHandler(r.point) ==> forall e <- trace :: !Entry(e, id))
  }

  /** The handler entry e is authorised by what the trace held before it. */
  ghost predicate EntryAuthorised(e: Event, before: seq<Event>)
    requires e.Entered?
  {
    && Binds(e.actionId, e.approval, e.decision, e.started)
    && e.now < e.approval.expiresAt
    && InOrder([ApprovalHook(e.actionId, e.approval), Accepted(e.actionId, e.decision),
                DecisionKept(e.actionId, e.decision), Dispatched(e.actionId, e.started)], before)
  }

  ghost predicate TraceSound(trace: seq<Event>, decisionIds: set<string>) {
    && (forall h :: 0 <= h < |trace| && trace[h].Entered? ==> EntryAuthorised(trace[h], trace[..h]))
    && (forall h, k :: 0 <= h < k < |trace| && trace[h].Entered? && trace[k].Entered?
                       ==> trace[h].actionId != trace[k].actionId)
    && (forall e <- trace :: e.Accepted? ==> e.decision.decisionId in decisionIds)
    && (forall h, k :: 0 <= h < k < |trace| && trace[h].Accepted? && trace[k].Accepted?
                       ==> trace[h].decision.decisionId != trace[k].decision.decisionId)
  }

  ghost predicate Sound(rt: Runtime) {
    && TraceSound(rt.trace, rt.decisionIds)
    && (forall id <- rt.records :: RecordSound(id, rt.records[id], rt.trace))
    && (forall call <- rt.approving :: rt.approving[call].actionId in rt.records)
    && (forall e <- rt.trace :: e.actionId in rt.records)
  }

  // ---------- one event at a time ----------

  lemma RecordKept(id: string, r: Record, trace: seq<Event>, e: Event)
    requires RecordSound(id, r, trace) && !Entry(e, id)
    ensures RecordSound(id, r, trace + [e])
  {
    hide InOrder;
    forall events | InOrder(events, trace) ensures InOrder(events, trace + [e]) {
      InOrderGrows(events, trace, e);
    }
  }

  lemma TraceKept(trace: seq<Event>, ids: set<string>, more: set<string>, e: Event)
    requires TraceSound(trace, ids) && ids <= more
    requires e.Entered? ==> EntryAuthorised(e, trace) && forall x <- trace :: !Entry(x, e.actionId)
    requires e.Accepted? ==> e.decision.decisionId !in ids && e.decision.decisionId in more
    ensures TraceSound(trace + [e], more)
  {
    hide InOrder, EntryAuthorised;
    var grown := trace + [e];
    forall h | 0 <= h < |grown| && grown[h].Entered? ensures EntryAuthorised(grown[h], grown[..h]) {
      assert grown[..h] == trace[..h];
      assert trace[..|trace|] == trace;
    }
    forall h, k | 0 <= h < k < |grown| && grown[h].Entered? && grown[k].Entered?
      ensures grown[h].actionId != grown[k].actionId
    {
      assert grown[h] == trace[h] && grown[h] in trace;
      if k == |trace| { assert !Entry(trace[h], e.actionId); }
    }
    forall h, k | 0 <= h < k < |grown| && grown[h].Accepted? && grown[k].Accepted?
      ensures grown[h].decision.decisionId != grown[k].decision.decisionId
    {
      assert grown[h] == trace[h] && grown[h] in trace;
    }
  }

  /** What an operation may add to the trace, and the record it leaves. */
  ghost predicate ChangeSound(id: string, before: Record, trace: seq<Event>, ids: set<string>, c: Change) {
    && (forall e <- c.events :: e.actionId == id)
    && (forall i :: 0 <= i < |c.events| && c.events[i].Accepted? ==>
          |c.events| == 1 && c.events[i].decision.decisionId !in ids
          && c.decisionId == Some(c.events[i].decision.decisionId))
    && (forall i :: 0 <= i < |c.events| && c.events[i].Entered? ==>
          i == 1 && |c.events| == 2 && EntryAuthorised(c.events[1], trace + [c.events[0]])
          && !c.events[0].Entered? && BeforeHandler(before.point) && !BeforeHandler(c.record.point))
    && RecordSound(id, c.record, trace + c.events)
  }

  /** A change that adds no event and captures nothing. */
  lemma QuietIsSound(id: string, r: Record, trace: seq<Event>, ids: set<string>, c: Change)
    requires RecordSound(id, r, trace) && c.events == []
    requires c.record.proposal == r.proposal && c.record.approval == r.approval
    requires PointSound(id, c.record.point, trace)
    requires BeforeHandler(c.record.point) ==> BeforeHandler(r.point)
    ensures ChangeSound(id, r, trace, ids, c)
  {
    hide InOrder;
    assert trace + [] == trace;
  }

  /** A change that adds one event other than an acceptance or a handler entry. */
  lemma OneEventIsSound(id: string, r: Record, trace: seq<Event>, ids: set<string>, c: Change, e: Event)
    requires RecordSound(id, r, trace) && c.events == [e] && e.actionId == id && !e.Entered?
    requires e.Accepted? ==> e.decision.decisionId !in ids && c.decisionId == Some(e.decision.decisionId)
    requires c.record.proposal == r.proposal && c.record.approval == r.approval
    requires PointSound(id, c.record.point, trace + [e])
    requires BeforeHandler(c.record.point) ==> BeforeHandler(r.point)
    ensures ChangeSound(id, r, trace, ids, c)
  {
    hide InOrder;
    RecordKept(id, r, trace, e);
  }

  lemma DecidedIsSound(rt: Runtime, id: string, r: Record, answer: Option<Decision>, formed: bool)
    requires RecordSound(id, r, rt.trace) && r.point.Deciding?
    ensures ChangeSound(id, r, rt.trace, rt.decisionIds, OnDecided(rt, r, answer, formed))
  {
    hide InOrder, ChangeSound, Texts.Blank;
    var c := OnDecided(rt, r, answer, formed);
    if c.events == [] {
      QuietIsSound(id, r, rt.trace, rt.decisionIds, c);
    } else {
      var hook := ApprovalHook(id, r.point.approval);
      InOrderGrows([hook], rt.trace, c.events[0]);
      assert [hook] + [c.events[0]] == [hook, c.events[0]];
      OneEventIsSound(id, r, rt.trace, rt.decisionIds, c, c.events[0]);
    }
  }

  /** What follows the decision hook: the execution ends, or it is dispatching with
      started evidence for exactly what it has captured. */
  lemma AfterDecisionHook(rt: Runtime, r: Record, op: Op)
    requires r.point.Persisting? && op.DecisionHook?
    ensures var a, d, c := r.point.approval, r.point.decision, OnDecisionHook(rt, r, op);
      && c.events == (if op.ok then [DecisionKept(r.proposal.actionId, d)] else [])
      && c.record.proposal == r.proposal && c.record.approval == r.approval
      && (c.record.point.Resolved? || c.record.point.Rejected?
          || c.record.point == Dispatching(a, d, Started(r.proposal.actionId, a.approvalId, d.decisionId,
                                                         op.receipt, op.startedAt)))
      && (c.record.point.Dispatching? ==> op.ok && d.verdict.Allow?)
  {
    hide ValidApproval, Texts.Blank;
  }

  /** What a kept decision adds to the order of events. */
  lemma KeptDecisionOrder(id: string, r: Record, trace: seq<Event>)
    requires RecordSound(id, r, trace) && r.point.Persisting?
    ensures var a, d := r.point.approval, r.point.decision;
            a.actionId == id && d.actionId == id && r.proposal.actionId == id
            && InOrder([ApprovalHook(id, a), Accepted(id, d), DecisionKept(id, d)], trace + [DecisionKept(id, d)])
  {
    hide InOrder;
    var a, d := r.point.approval, r.point.decision;
    InOrderGrows([ApprovalHook(id, a), Accepted(id, d)], trace, DecisionKept(id, d));
    assert [ApprovalHook(id, a), Accepted(id, d)] + [DecisionKept(id, d)]
        == [ApprovalHook(id, a), Accepted(id, d), DecisionKept(id, d)];
  }

  lemma DecisionHookIsSound(rt: Runtime, id: string, r: Record, op: Op)
    requires RecordSound(id, r, rt.trace) && r.point.Persisting? && op.DecisionHook?
    ensures ChangeSound(id, r, rt.trace, rt.decisionIds, OnDecisionHook(rt, r, op))
  {
    hide InOrder, ChangeSound, OnDecisionHook, RecordSound;
    AfterDecisionHook(rt, r, op);
    KeptDecisionOrder(id, r, rt.trace);
    var c := OnDecisionHook(rt, r, op);
    if op.ok {
      OneEventIsSound(id, r, rt.trace, rt.decisionIds, c, c.events[0]);
    } else {
      QuietIsSound(id, r, rt.trace, rt.decisionIds, c);
    }
  }

  lemma DispatchHookIsSound(rt: Runtime, id: string, r: Record, ok: bool, now: int)
    requires RecordSound(id, r, rt.trace) && r.point.Dispatching?
    ensures ChangeSound(id, r, rt.trace, rt.decisionIds, OnDispatchHook(r, ok, now))
  {
    hide InOrder, ChangeSound, Texts.Blank, Texts.IsSha256;
    var c := OnDispatchHook(r, ok, now);
    var a, d, s := r.point.approval, r.point.decision, r.point.started;
    if c.events == [] {
      QuietIsSound(id, r, rt.trace, rt.decisionIds, c);
    } else if |c.events| == 1 {
      OneEventIsSound(id, r, rt.trace, rt.decisionIds, c, c.events[0]);
    } else {
      EntryIsSound(id, r, rt.trace, rt.decisionIds, c, now);
    }
  }

  /** The only change that enters a handler. */
  lemma EntryIsSound(id: string, r: Record, trace: seq<Event>, ids: set<string>, c: Change, now: int)
    requires RecordSound(id, r, trace) && r.point.Dispatching?
    requires var a, d, s := r.point.approval, r.point.decision, r.point.started;
      && c.events == [Dispatched(id, s), Entered(id, a, d, s, now)] && now < a.expiresAt
      && c.record.proposal == r.proposal && c.record.approval == r.approval && c.record.point.Handling?
    ensures ChangeSound(id, r, trace, ids, c)
  {
    hide InOrder;
    var a, d, s := r.point.approval, r.point.decision, r.point.started;
    var events := [ApprovalHook(id, a), Accepted(id, d), DecisionKept(id, d)];
    InOrderGrows(events, trace, c.events[0]);
    assert events + [Dispatched(id, s)]
        == [ApprovalHook(id, a), Accepted(id, d), DecisionKept(id, d), Dispatched(id, s)];
    var next := trace + [c.events[0]];
    assert trace + c.events == next + [c.events[1]];
    if r.approval.Some? {
      InOrderGrows([ApprovalHook(id, r.approval.value)], trace, c.events[0]);
      InOrderGrows([ApprovalHook(id, r.approval.value)], next, c.events[1]);
    }
  }

  lemma ExecuteIsSound(rt: Runtime, id: string, r: Record, now: int, registered: bool, formed: bool)
    requires RecordSound(id, r, rt.trace)
    ensures ChangeSound(id, r, rt.trace, rt.decisionIds, OnExecute(rt, r, now, registered, formed))
  {
    hide InOrder, ChangeSound, Texts.Blank, ValidApproval, ValidDecision;
    QuietIsSound(id, r, rt.trace, rt.decisionIds, OnExecute(rt, r, now, registered, formed));
  }

  lemma SettlingIsSound(rt: Runtime, id: string, r: Record, op: Op)
    requires RecordSound(id, r, rt.trace) && (op.HandlerDone? || op.SettlementHook?)
    ensures ChangeSound(id, r, rt.trace, rt.decisionIds, OnOp(rt, r, op))
  {
    hide InOrder, ChangeSound;
    var c := OnOp(rt, r, op);
    if c.events == [] {
      QuietIsSound(id, r, rt.trace, rt.decisionIds, c);
    } else {
      OneEventIsSound(id, r, rt.trace, rt.decisionIds, c, c.events[0]);
    }
  }

  lemma OpIsSound(rt: Runtime, id: string, r: Record, op: Op)
    requires RecordSound(id, r, rt.trace)
    ensures ChangeSound(id, r, rt.trace, rt.decisionIds, OnOp(rt, r, op))
  {
    hide OnExecute, OnDecided, OnDecisionHook, OnDispatchHook, OnHandlerDone, OnSettlementHook, InOrder, ChangeSound;
    var c := OnOp(rt, r, op);
    match op {
      case Execute(now, registered, formed) => ExecuteIsSound(rt, id, r, now, registered, formed);
      case Decided(answer, formed) =>
        if r.point.Deciding? { DecidedIsSound(rt, id, r, answer, formed); }
        else { QuietIsSound(id, r, rt.trace, rt.decisionIds, c); }
      case DecisionHook(_, _, _, _, _) =>
        if r.point.Persisting? { DecisionHookIsSound(rt, id, r, op); }
        else { QuietIsSound(id, r, rt.trace, rt.decisionIds, c); }
      case DispatchHook(ok, now) =>
        if r.point.Dispatching? { DispatchHookIsSound(rt, id, r, ok, now); }
        else { QuietIsSound(id, r, rt.trace, rt.decisionIds, c); }
      case HandlerDone(_) => SettlingIsSound(rt, id, r, op);
      case SettlementHook(_) => SettlingIsSound(rt, id, r, op);
      case _ => QuietIsSound(id, r, rt.trace, rt.decisionIds, c);
    }
  }

  // ---------- whole runs ----------

  lemma RecordKeptByAll(id: string, r: Record, trace: seq<Event>, events: seq<Event>)
    requires RecordSound(id, r, trace) && |events| <= 2
    requires forall e <- events :: e.actionId != id
    ensures RecordSound(id, r, trace + events)
  {
    hide RecordSound;
    if |events| == 0 {
      assert trace + events == trace;
    } else {
      RecordKept(id, r, trace, events[0]);
      if |events| == 1 {
        assert trace + events == trace + [events[0]];
      } else {
        RecordKept(id, r, trace + [events[0]], events[1]);
        assert trace + events == trace + [events[0]] + [events[1]];
      }
    }
  }

  lemma TraceKeptByChange(id: string, r: Record, trace: seq<Event>, ids: set<string>, c: Change)
    requires TraceSound(trace, ids) && RecordSound(id, r, trace) && ChangeSound(id, r, trace, ids, c)
    requires |c.events| <= 2
    ensures TraceSound(trace + c.events, if c.decisionId.Some? then ids + {c.decisionId.value} else ids)
  {
    hide InOrder, EntryAuthorised, TraceSound;
    var more := if c.decisionId.Some? then ids + {c.decisionId.value} else ids;
    if |c.events| == 0 {
      assert trace + c.events == trace;
      MoreIds(trace, ids, more);
    } else {
      var e := c.events[0];
      TraceKept(trace, ids, more, e);
      if |c.events| == 1 {
        assert trace + c.events == trace + [e];
      } else {
        TraceKept(trace + [e], more, more, c.events[1]);
        assert trace + c.events == trace + [e] + [c.events[1]];
      }
    }
  }

  lemma MoreIds(trace: seq<Event>, ids: set<string>, more: set<string>)
    requires TraceSound(trace, ids) && ids <= more
    ensures TraceSound(trace, more)
  {
    hide EntryAuthorised;
  }

  lemma FewEvents(rt: Runtime, r: Record, op: Op)
    ensures |OnOp(rt, r, op).events| <= 2
  {
    hide ValidApproval, ValidDecision, Texts.Blank;
  }

  lemma ActionTurnIsSound(rt: Runtime, id: string, op: Op)
    requires Sound(rt) && id in rt.records
    ensures Sound(Changed(rt, id, op, OnOp(rt, rt.records[id], op)))
  {
    hide OnOp, TraceSound, RecordSound;
    var r := rt.records[id];
    var c := OnOp(rt, r, op);
    OpIsSound(rt, id, r, op);
    FewEvents(rt, r, op);
    TraceKeptByChange(id, r, rt.trace, rt.decisionIds, c);
    forall other | other in rt.records && other != id
      ensures RecordSound(other, rt.records[other], rt.trace + c.events)
    {
      RecordKeptByAll(other, rt.records[other], rt.trace, c.events);
    }
  }

  lemma ApprovedRecord(r: Record, a: Approval, trace: seq<Event>)
    requires RecordSound(a.actionId, r, trace)
    ensures RecordSound(a.actionId, WithApproval(r, a), trace + [ApprovalHook(a.actionId, a)])
  {
    hide InOrder;
    var e := ApprovalHook(a.actionId, a);
    RecordKept(a.actionId, r, trace, e);
    EmptyInOrder(trace);
    InOrderGrows([], trace, e);
    assert [] + [e] == [e];
  }

  lemma ApprovalTurnIsSound(rt: Runtime, call: nat, ok: bool)
    requires Sound(rt)
    ensures Sound(Next(rt, EndApprove(call, ok)))
  {
    hide TraceSound, InOrder, RecordSound, WithApproval;
    if call in rt.approving && ok {
      var a := rt.approving[call];
      var e := ApprovalHook(a.actionId, a);
      TraceKept(rt.trace, rt.decisionIds, rt.decisionIds, e);
      ApprovedRecord(rt.records[a.actionId], a, rt.trace);
      forall id | id in rt.records ensures RecordSound(id, rt.records[id], rt.trace + [e]) {
        RecordKept(id, rt.records[id], rt.trace, e);
      }
    }
  }

  lemma EmptyInOrder(trace: seq<Event>)
    ensures InOrder([], trace)
  {}

  lemma NextIsSound(rt: Runtime, turn: Turn)
    requires Sound(rt)
    ensures Sound(Next(rt, turn))
  {
    hide TraceSound, InOrder, OnOp, ValidApproval;
    match turn {
      case EndApprove(call, ok) => ApprovalTurnIsSound(rt, call, ok);
      case OnAction(id, op) => if id in rt.records { ActionTurnIsSound(rt, id, op); }
      case _ =>
    }
  }

  lemma {:induction false} PlayIsSound(turns: seq<Turn>)
    ensures Sound(Play(turns))
  {
    hide Sound, Next;
    if turns == [] {
      NewIsSound();
    } else {
      PlayIsSound(turns[..|turns| - 1]);
      NextIsSound(Play(turns[..|turns| - 1]), turns[|turns| - 1]);
    }
  }

  lemma NewIsSound()
    ensures Sound(NEW_RUNTIME)
  {}

  /** In every interleaving each handler entry follows, in order, an approval hook that
      succeeded, an accepted allow decision, its persistence and a dispatch barrier, all
      for the same action, approval, decision and receipt; and the approval captured
      then had not expired at the last reading of the clock. */
  lemma HandlerIsAuthorised(turns: seq<Turn>, h: nat) returns (a: nat, c: nat, d: nat, b: nat)
    requires h < |Play(turns).trace| && Play(turns).trace[h].Entered?
    ensures a < c < d < b < h
    ensures var trace, e := Play(turns).trace, Play(turns).trace[h];
      && trace[a] == ApprovalHook(e.actionId, e.approval)
      && trace[c] == Accepted(e.actionId, e.decision)
      && trace[d] == DecisionKept(e.actionId, e.decision)
      && trace[b] == Dispatched(e.actionId, e.started)
      && Binds(e.actionId, e.approval, e.decision, e.started)
      && e.now < e.approval.expiresAt
  {
    hide Next, InOrder;
    PlayIsSound(turns);
    var trace := Play(turns).trace;
    var e := trace[h];
    var at := Positions([ApprovalHook(e.actionId, e.approval), Accepted(e.actionId, e.decision),
                         DecisionKept(e.actionId, e.decision), Dispatched(e.actionId, e.started)], trace[..h]);
    a, c, d, b := at[0], at[1], at[2], at[3];
  }

  /** A handler runs at most once for an action, and no two handler entries share an
      accepted decision id. */
  lemma HandlersAreUnique(turns: seq<Turn>, h: nat, k: nat)
    requires h < k < |Play(turns).trace| && Play(turns).trace[h].Entered? && Play(turns).trace[k].Entered?
    ensures Play(turns).trace[h].actionId != Play(turns).trace[k].actionId
    ensures Play(turns).trace[h].decision.decisionId != Play(turns).trace[k].decision.decisionId
  {
    hide Next, InOrder;
    PlayIsSound(turns);
    var trace := Play(turns).trace;
    var _, c, _, _ := HandlerIsAuthorised(turns, h);
    var _, d, _, _ := HandlerIsAuthorised(turns, k);
    assert trace[c].actionId != trace[d].actionId;
    assert c < d || d < c;
  }
}
