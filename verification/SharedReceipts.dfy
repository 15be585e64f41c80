/** What a repeated execution receipt does: a run in which an action stays Running, without
    an outcome, for ever. */
module SharedReceipts {
  import opened Wrappers
  import opened Texts
  import opened ActionRuntime
  import opened ActionAuthority
  import opened ActionSettlement
  import opened ActionOutcomes

  // ---------- a settlement that is refused ----------

  /** A handler result that fails its checks: the action leaves Running, interrupted,
      exactly when its receipt has no outcome yet. */
  lemma RefusedResultExactlyOnNewReceipt(rt: Runtime, r: Record)
    requires Lifecycle(r) && r.point.Handling?
    ensures var next := OnOp(rt, r, HandlerDone(Returned(false))).record;
      && (!next.state.Running? <==> r.point.started.receipt !in rt.outcomes)
      && (next.state.Running? <==> next.point.Rejected?)
      && (!next.state.Running? ==> next.state.Interrupted?)
  {}

  /** Both routes together, and no others: an execution under way in Running is rejected
      there exactly when its receipt has an outcome already and either the settlement hook
      returns, with success or not, or the handler's result fails its checks. */
  lemma RejectedInRunningExactly(rt: Runtime, r: Record, op: Op)
    requires Lifecycle(r) && r.state.Running? && !r.point.Rejected?
    ensures var next := OnOp(rt, r, op).record;
      next.state.Running? && next.point.Rejected? <==>
        && r.started.Some? && r.started.value.receipt in rt.outcomes
        && ((r.point.Settling? && op.SettlementHook?) || (r.point.Handling? && op == HandlerDone(Returned(false))))
  {
    hide OnDecided, OnDecisionHook, OnDispatchHook, ValidApproval, LocalDecision;
  }

  // ---------- every run, whatever the receipts ----------

  predicate Stuck(r: Record) { r.started.Some? && r.state.Running? && r.point.Rejected? }

  predicate OutcomeOf(outcomes: map<string, Outcome>, receipt: string, id: string) {
    receipt in outcomes && outcomes[receipt].actionId == id
  }

  /** What a record and the outcomes say about each other, whatever the receipts. */
  ghost predicate Agrees(id: string, r: Record, outcomes: map<string, Outcome>) {
    && r.proposal.actionId == id && (Stuck(r) || Lifecycle(r))
    && (Stuck(r) ==> r.started.value.receipt in outcomes)
    && (forall receipt <- outcomes :: outcomes[receipt].actionId == id ==>
          !r.state.Running? && r.started.Some? && receipt == r.started.value.receipt)
    && (r.started.Some? && !r.state.Running? ==>
          && TerminalState(r.state) && OutcomeOf(outcomes, r.started.value.receipt, id)
          && r.outcome == Some(outcomes[r.started.value.receipt]) && SettledState(r.outcome.value.status) == r.state)
  }

  function WithOutcome(outcomes: map<string, Outcome>, o: Option<Outcome>): map<string, Outcome> {
    if o.Some? then outcomes[o.value.receipt := o.value] else outcomes
  }

  /** What an operation does to its own record, and that it records only a new outcome. */
  ghost predicate StaysAgreed(id: string, c: Change, outcomes: map<string, Outcome>) {
    && Agrees(id, c.record, WithOutcome(outcomes, c.outcome))
    && (c.outcome.Some? ==> c.outcome.value.actionId == id && c.outcome.value.receipt !in outcomes)
  }

  /** A change before the handler is entered: nothing is started, and no outcome recorded. */
  ghost predicate StaysUnstarted(r: Record, c: Change) {
    c.outcome.None? && c.record.started.None? && c.record.proposal == r.proposal && Lifecycle(c.record)
  }

  lemma UnstartedAgrees(id: string, r: Record, c: Change, outcomes: map<string, Outcome>)
    requires Agrees(id, r, outcomes) && r.started.None? && StaysUnstarted(r, c)
    ensures StaysAgreed(id, c, outcomes)
  {}

  lemma ExecuteUnstarted(rt: Runtime, r: Record, now: int, registered: bool, formed: bool)
    requires Lifecycle(r) && r.started.None? && r.point.NotExecuted?
    ensures StaysUnstarted(r, OnExecute(rt, r, now, registered, formed))
  {
    hide ValidApproval, ValidDecision, LocalDecision;
  }

  lemma DecidedUnstarted(rt: Runtime, r: Record, answer: Option<Decision>, formed: bool)
    requires Lifecycle(r) && r.started.None? && r.point.Deciding?
    ensures StaysUnstarted(r, OnDecided(rt, r, answer, formed))
  {
    hide ValidDecision, LocalDecision, Blank;
  }

  lemma DecisionUnstarted(rt: Runtime, r: Record, op: Op)
    requires Lifecycle(r) && r.started.None? && r.point.Persisting? && op.DecisionHook?
    ensures StaysUnstarted(r, OnDecisionHook(rt, r, op))
  {
    hide ValidApproval, ValidStarted, LocalDecision;
  }

  lemma OtherUnstarted(rt: Runtime, r: Record, op: Op)
    requires Lifecycle(r) && BeforeHandler(r.point) && (op.RequestHook? || op.FailClosedHook? || op.Cancel?)
    ensures StaysUnstarted(r, OnOp(rt, r, op))
  {
    hide LocalDecision, OnExecute, OnDecided, OnDecisionHook, OnDispatchHook, OnHandlerDone, OnSettlementHook;
  }

  lemma BeforeHandlerAgrees(rt: Runtime, id: string, r: Record, op: Op)
    requires Agrees(id, r, rt.outcomes) && BeforeHandler(r.point) && !r.point.Dispatching?
    ensures StaysAgreed(id, OnOp(rt, r, op), rt.outcomes)
  {
    hide LocalDecision, OnDecided, OnDecisionHook, OnDispatchHook, OnHandlerDone, OnSettlementHook, ValidApproval,
         StaysAgreed, Successors;
    if op.Execute? && r.point.NotExecuted? {
      ExecuteUnstarted(rt, r, op.now, op.registered, op.formed);
    } else if op.Decided? && r.point.Deciding? {
      DecidedUnstarted(rt, r, op.answer, op.formed);
    } else if op.DecisionHook? && r.point.Persisting? {
      DecisionUnstarted(rt, r, op);
    } else if op.RequestHook? || op.FailClosedHook? || op.Cancel? {
      OtherUnstarted(rt, r, op);
    }
    UnstartedAgrees(id, r, OnOp(rt, r, op), rt.outcomes);
  }

  lemma DispatchAgrees(rt: Runtime, id: string, r: Record, ok: bool, now: int)
    requires Agrees(id, r, rt.outcomes) && r.point.Dispatching?
    ensures StaysAgreed(id, OnDispatchHook(r, ok, now), rt.outcomes)
  {
    hide ValidApproval;
  }

  lemma RecordingAgrees(id: string, r: Record, s: Started, o: Outcome, outcomes: map<string, Outcome>,
                        events: seq<Event>)
    requires Agrees(id, r, outcomes) && r.state.Running? && r.started == Some(s)
    requires o.actionId == id && o.receipt == s.receipt && s.receipt !in outcomes
    ensures StaysAgreed(id, Change(EndIn(r.(outcome := Some(o)), SettledState(o.status)), events, None, None,
                                   Some(o)), outcomes)
  {}

  lemma RejectingAgrees(id: string, r: Record, s: Started, outcomes: map<string, Outcome>, events: seq<Event>)
    requires Agrees(id, r, outcomes) && r.state.Running? && r.started == Some(s) && s.receipt in outcomes
    ensures StaysAgreed(id, Change(r.(point := Rejected), events, None, None, None), outcomes)
  {}

  lemma InterruptAgrees(rt: Runtime, id: string, r: Record, s: Started)
    requires Agrees(id, r, rt.outcomes) && r.state.Running? && r.started == Some(s)
    ensures StaysAgreed(id, Interrupt(rt, r, s), rt.outcomes)
  {
    hide Agrees, StaysAgreed, EndIn;
    var o, events := Outcome(id, s.receipt, UnknownOrInterrupted), [SettlementFailed(id, s.receipt)];
    assert r.proposal.actionId == id by { OwnId(id, r, rt.outcomes); }
    if s.receipt in rt.outcomes {
      RejectingAgrees(id, r, s, rt.outcomes, events);
    } else {
      RecordingAgrees(id, r, s, o, rt.outcomes, events);
    }
  }

  lemma OwnId(id: string, r: Record, outcomes: map<string, Outcome>)
    requires Agrees(id, r, outcomes)
    ensures r.proposal.actionId == id
  {}

  lemma HandlerDoneAgrees(rt: Runtime, id: string, r: Record, result: HandlerResult)
    requires Agrees(id, r, rt.outcomes) && r.point.Handling?
    ensures StaysAgreed(id, OnHandlerDone(rt, r, result), rt.outcomes)
  {
    hide Interrupt;
    InterruptAgrees(rt, id, r, r.point.started);
  }

  lemma SettlementAgrees(rt: Runtime, id: string, r: Record, ok: bool)
    requires Agrees(id, r, rt.outcomes) && r.point.Settling?
    ensures StaysAgreed(id, OnSettlementHook(rt, r, ok), rt.outcomes)
  {
    hide Interrupt, StaysAgreed, EndIn;
    var s, o := r.point.started, r.point.outcome;
    InterruptAgrees(rt, id, r, s);
    if s.receipt in rt.outcomes {
      RejectingAgrees(id, r, s, rt.outcomes, []);
    } else {
      RecordingAgrees(id, r, s, o, rt.outcomes, []);
    }
  }

  lemma CancelAgrees(id: string, r: Record, outcomes: map<string, Outcome>)
    requires Agrees(id, r, outcomes)
    ensures StaysAgreed(id, OnCancel(r), outcomes) && StaysAgreed(id, Plain(r), outcomes)
  {}

  lemma HandlerAgrees(rt: Runtime, id: string, r: Record, op: Op)
    requires Agrees(id, r, rt.outcomes) && (r.point.Dispatching? || r.point.Handling? || r.point.Settling?)
    ensures StaysAgreed(id, OnOp(rt, r, op), rt.outcomes)
  {
    hide OnDecided, OnDecisionHook, OnDispatchHook, OnHandlerDone, OnSettlementHook, OnCancel, Agrees, StaysAgreed;
    CancelAgrees(id, r, rt.outcomes);
    if op.DispatchHook? && r.point.Dispatching? { DispatchAgrees(rt, id, r, op.ok, op.now); }
    if op.HandlerDone? && r.point.Handling? { HandlerDoneAgrees(rt, id, r, op.result); }
    if op.SettlementHook? && r.point.Settling? { SettlementAgrees(rt, id, r, op.ok); }
  }

  lemma OverAgrees(rt: Runtime, id: string, r: Record, op: Op)
    requires Agrees(id, r, rt.outcomes) && (r.point.Rejected? || r.point.Resolved?)
    ensures StaysAgreed(id, OnOp(rt, r, op), rt.outcomes)
  {
    hide ValidApproval, OnDecided, OnDecisionHook, OnDispatchHook, OnHandlerDone, OnSettlementHook;
  }

  lemma OpAgrees(rt: Runtime, id: string, r: Record, op: Op)
    requires Agrees(id, r, rt.outcomes)
    ensures StaysAgreed(id, OnOp(rt, r, op), rt.outcomes)
  {
    hide OnOp, StaysAgreed;
    if r.point.Rejected? || r.point.Resolved? {
      OverAgrees(rt, id, r, op);
    } else if r.point.Dispatching? || r.point.Handling? || r.point.Settling? {
      HandlerAgrees(rt, id, r, op);
    } else {
      BeforeHandlerAgrees(rt, id, r, op);
    }
  }

  ghost predicate AllAgree(rt: Runtime) {
    && (forall id <- rt.records :: Agrees(id, rt.records[id], rt.outcomes))
    && (forall receipt <- rt.outcomes :: rt.outcomes[receipt].actionId in rt.records)
  }

  lemma OtherAgrees(id: string, r: Record, outcomes: map<string, Outcome>, o: Option<Outcome>)
    requires Agrees(id, r, outcomes) && (o.Some? ==> o.value.actionId != id && o.value.receipt !in outcomes)
    ensures Agrees(id, r, WithOutcome(outcomes, o))
  {}

  lemma ApprovalAgrees(id: string, r: Record, a: Approval, outcomes: map<string, Outcome>)
    requires Agrees(id, r, outcomes)
    ensures Agrees(id, WithApproval(r, a), outcomes)
  {}

  lemma ProposalAgrees(p: Proposal, outcomes: map<string, Outcome>)
    requires forall receipt <- outcomes :: outcomes[receipt].actionId != p.actionId
    ensures Agrees(p.actionId, NewRecord(p), outcomes)
  {}

  lemma NextAgrees(rt: Runtime, turn: Turn)
    requires AllAgree(rt)
    ensures AllAgree(Next(rt, turn))
  {
    hide OnOp, Agrees, ValidApproval, NewRecord, WithApproval, Blank;
    var next := Next(rt, turn);
    forall id | id in next.records ensures Agrees(id, next.records[id], next.outcomes) {
      match turn {
        case Propose(p, _) => if id !in rt.records { ProposalAgrees(p, rt.outcomes); }
        case BeginApprove(_, _, _) =>
        case EndApprove(call, ok) =>
          if call in rt.approving { ApprovalAgrees(id, rt.records[id], rt.approving[call], rt.outcomes); }
        case OnAction(target, op) =>
          if target in rt.records {
            OpAgrees(rt, target, rt.records[target], op);
            if id != target { OtherAgrees(id, rt.records[id], rt.outcomes, OnOp(rt, rt.records[target], op).outcome); }
          }
      }
    }
    if turn.OnAction? && turn.actionId in rt.records {
      OpAgrees(rt, turn.actionId, rt.records[turn.actionId], turn.op);
    }
  }

  lemma {:induction false} PlayAgrees(turns: seq<Turn>)
    ensures AllAgree(Play(turns))
  {
    hide Next, AllAgree;
    if turns == [] {
      assert AllAgree(NEW_RUNTIME) by { NewAgrees(); }
    } else {
      PlayAgrees(turns[..|turns| - 1]);
      NextAgrees(Play(turns[..|turns| - 1]), turns[|turns| - 1]);
    }
  }

  lemma NewAgrees()
    ensures AllAgree(NEW_RUNTIME)
  {}

  /** In every run, whatever the receipts: a started action is under way, with no outcome of
      its own; or it has ended in the state its own outcome names; or it is stuck in
      Running, which is so exactly when the outcome under its receipt is another action's. */
  lemma StartedActionsExactly(turns: seq<Turn>, id: string)
    requires id in Play(turns).records && Play(turns).records[id].started.Some?
    ensures var rt := Play(turns);
      var r := rt.records[id];
      var receipt, underWay := r.started.value.receipt, r.point.Handling? || r.point.Settling?;
      && (underWay ==> r.state.Running? && forall other <- rt.outcomes :: rt.outcomes[other].actionId != id)
      && (!underWay ==> receipt in rt.outcomes)
      && (!underWay ==> (r.state.Running? <==> rt.outcomes[receipt].actionId != id))
      && (!r.state.Running? ==>
            TerminalState(r.state) && r.outcome == Some(rt.outcomes[receipt])
            && SettledState(r.outcome.value.status) == r.state)
  {
    hide Play;
    PlayAgrees(turns);
    assert Agrees(id, Play(turns).records[id], Play(turns).outcomes);
  }

  // ---------- one execution, up to its handler ----------

  /** What an execution that meets no obstacle needs. */
  ghost predicate Fresh(rt: Runtime, p: Proposal, a: Approval, d: Decision, call: nat, receipt: string) {
    && !Blank(p.actionId) && p.actionId !in rt.records && call !in rt.approving
    && a.actionId == p.actionId && ValidApproval(a, p, 0)
    && ValidDecision(d, p) && d.verdict.Allow? && d.decisionId !in rt.decisionIds
    && !Blank(receipt) && receipt !in rt.receipts
  }

  function StartedBy(p: Proposal, a: Approval, d: Decision, receipt: string): Started {
    Started(p.actionId, a.approvalId, d.decisionId, receipt, 0)
  }

  const UP_TO_STARTING := [Proposed, AwaitingApproval, Approved, Evaluating, Allowed, Starting]

  /** An action whose start evidence waits for the dispatch hook. */
  function Waiting(p: Proposal, a: Approval, d: Decision, receipt: string): Record {
    Record(p, Starting, UP_TO_STARTING, Some(a), Some(d), None, None, false,
           Dispatching(a, d, StartedBy(p, a, d, receipt)))
  }

  function Entering(p: Proposal, a: Approval, d: Decision, receipt: string): Record {
    var s := StartedBy(p, a, d, receipt);
    Waiting(p, a, d, receipt).(state := Running, history := UP_TO_STARTING + [Running], started := Some(s),
                               point := Handling(a, d, s))
  }

  lemma PlaySnoc(turns: seq<Turn>, turn: Turn)
    ensures Play(turns + [turn]) == Next(Play(turns), turn)
  {
    assert (turns + [turn])[..|turns|] == turns;
  }

  /** Proposal and approval. */
  lemma Approve(turns: seq<Turn>, p: Proposal, a: Approval, call: nat) returns (next: seq<Turn>)
    requires var rt := Play(turns); p.actionId !in rt.records && call !in rt.approving
    requires !Blank(p.actionId) && a.actionId == p.actionId && ValidApproval(a, p, 0)
    ensures var rt, after := Play(turns), Play(next);
      && after.records == rt.records[p.actionId := NewRecord(p).(state := Approved, approval := Some(a),
                                                                 history := [Proposed, AwaitingApproval, Approved])]
      && after.(records := rt.records, trace := rt.trace) == rt
  {
    hide Play, ValidApproval, Blank;
    var rt := Play(turns);
    var t1 := turns + [Propose(p, true)];
    PlaySnoc(turns, Propose(p, true));
    var t2 := t1 + [BeginApprove(call, a, 0)];
    PlaySnoc(t1, BeginApprove(call, a, 0));
    next := t2 + [EndApprove(call, true)];
    PlaySnoc(t2, EndApprove(call, true));
    assert rt.approving[call := a] - {call} == rt.approving;
    assert [Proposed, AwaitingApproval] + [Approved] == [Proposed, AwaitingApproval, Approved];
  }

  /** Execution up to the answer of the decider. */
  lemma Ask(turns: seq<Turn>, id: string) returns (next: seq<Turn>)
    requires var rt := Play(turns);
      id in rt.records && rt.records[id].state.Approved? && rt.records[id].point.NotExecuted?
    requires var r := Play(turns).records[id];
      r.approval.Some? && ValidApproval(r.approval.value, r.proposal, 0) && !r.aborted
    ensures var rt, after := Play(turns), Play(next);
      var r := rt.records[id];
      && after == rt.(records := rt.records[id := r.(state := Evaluating, history := r.history + [Evaluating],
                                                     point := Deciding(r.approval.value))])
  {
    hide Play, ValidApproval, LocalDecision, OnDecided, OnDecisionHook, OnDispatchHook;
    var execute, request := OnAction(id, Execute(0, true, true)), OnAction(id, RequestHook(true));
    var t1 := turns + [execute];
    PlaySnoc(turns, execute);
    next := t1 + [request];
    PlaySnoc(t1, request);
  }

  /** A record that waits for its decision, under a valid approval. */
  predicate Waits(r: Record, id: string, a: Approval) {
    && r.state.Evaluating? && r.point == Deciding(a) && !r.aborted && r.started.None?
    && r.proposal.actionId == id && ValidApproval(a, r.proposal, 0)
  }

  function AllowedBy(r: Record, a: Approval, d: Decision, receipt: string): Record {
    r.(state := Starting, history := r.history + [Allowed] + [Starting], decision := Some(d),
       point := Dispatching(a, d, StartedBy(r.proposal, a, d, receipt)))
  }

  /** A decision that allows, up to the dispatch hook. */
  lemma Allowing(turns: seq<Turn>, id: string, a: Approval, d: Decision, receipt: string) returns (next: seq<Turn>)
    requires id in Play(turns).records && Waits(Play(turns).records[id], id, a)
    requires ValidDecision(d, Play(turns).records[id].proposal) && d.verdict.Allow?
    requires d.decisionId !in Play(turns).decisionIds && receipt !in Play(turns).receipts && !Blank(receipt)
    ensures var rt, after := Play(turns), Play(next);
      && after.records == rt.records[id := AllowedBy(rt.records[id], a, d, receipt)]
      && after.decisionIds == rt.decisionIds + {d.decisionId}
      && after.receipts == rt.receipts && after.outcomes == rt.outcomes && after.approving == rt.approving
  {
    hide Play, IsSha256, LocalDecision, OnExecute, OnDispatchHook, Blank;
    var decided, kept := OnAction(id, Decided(Some(d), true)), OnAction(id, DecisionHook(true, 0, 0, 0, receipt));
    var t1 := turns + [decided];
    PlaySnoc(turns, decided);
    next := t1 + [kept];
    PlaySnoc(t1, kept);
  }

  lemma Dispatch(turns: seq<Turn>, p: Proposal, a: Approval, d: Decision, call: nat, receipt: string)
    returns (next: seq<Turn>)
    requires Fresh(Play(turns), p, a, d, call, receipt)
    ensures var rt, after := Play(turns), Play(next);
      && after.records == rt.records[p.actionId := Waiting(p, a, d, receipt)]
      && after.decisionIds == rt.decisionIds + {d.decisionId}
      && after.receipts == rt.receipts && after.outcomes == rt.outcomes && after.approving == rt.approving
  {
    hide Play, ValidApproval, ValidDecision, Blank;
    next := Approve(turns, p, a, call);
    next := Ask(next, p.actionId);
    next := Allowing(next, p.actionId, a, d, receipt);
    assert [Proposed, AwaitingApproval, Approved] + [Evaluating] + [Allowed] + [Starting] == UP_TO_STARTING;
  }

  /** The dispatch hook returns: the handler is entered. */
  lemma Enter(turns: seq<Turn>, p: Proposal, a: Approval, d: Decision, receipt: string) returns (next: seq<Turn>)
    requires p.actionId in Play(turns).records && Play(turns).records[p.actionId] == Waiting(p, a, d, receipt)
    requires ValidApproval(a, p, 0)
    ensures var rt, after := Play(turns), Play(next);
      after.records == rt.records[p.actionId := Entering(p, a, d, receipt)] && after.outcomes == rt.outcomes
  {
    hide Play, ValidApproval, LocalDecision, OnExecute, OnDecided, OnDecisionHook;
    next := turns + [OnAction(p.actionId, DispatchHook(true, 0))];
    PlaySnoc(turns, OnAction(p.actionId, DispatchHook(true, 0)));
  }

  /** A result that fails its checks: the settlement is interrupted. */
  lemma Refuse(turns: seq<Turn>, p: Proposal, a: Approval, d: Decision, receipt: string) returns (next: seq<Turn>)
    requires p.actionId in Play(turns).records && Play(turns).records[p.actionId] == Entering(p, a, d, receipt)
    ensures p.actionId in Play(next).records && Play(next).records.Keys == Play(turns).records.Keys
    ensures forall id | id in Play(turns).records && id != p.actionId ::
              Play(next).records[id] == Play(turns).records[id]
    ensures receipt in Play(next).outcomes
    ensures receipt in Play(turns).outcomes ==>
              Play(next).records[p.actionId].state.Running? && Play(next).records[p.actionId].point.Rejected?
  {
    hide Play, LocalDecision, OnExecute, OnDecided, OnDecisionHook, OnDispatchHook;
    next := turns + [OnAction(p.actionId, HandlerDone(Returned(false)))];
    PlaySnoc(turns, OnAction(p.actionId, HandlerDone(Returned(false))));
  }

  /** The handler throws and the settlement hook returns. */
  lemma Settle(turns: seq<Turn>, p: Proposal, a: Approval, d: Decision, receipt: string) returns (next: seq<Turn>)
    requires p.actionId in Play(turns).records && Play(turns).records[p.actionId] == Entering(p, a, d, receipt)
    requires receipt in Play(turns).outcomes
    ensures p.actionId in Play(next).records
    ensures Play(next).records[p.actionId].state.Running? && Play(next).records[p.actionId].point.Rejected?
  {
    hide Play, LocalDecision, OnExecute, OnDecided, OnDecisionHook, OnDispatchHook;
    var done, settled := OnAction(p.actionId, HandlerDone(Threw(false))), OnAction(p.actionId, SettlementHook(true));
    PlaySnoc(turns, done);
    var t1 := turns + [done];
    next := t1 + [settled];
    PlaySnoc(t1, settled);
  }

  // ---------- two actions, one receipt ----------

  function ExampleProposal(id: string): Proposal { Proposal(id, "task", "sha256:" + seq(64, _ => 'a'), "type") }

  function ExampleApproval(id: string): Approval {
    Approval("approval", id, "task", "sha256:" + seq(64, _ => 'a'), 1, 0, 10)
  }

  function ExampleDecision(id: string): Decision { Decision(id, id, Allow, "reason", true) }

  lemma ExampleIsValid(id: string)
    requires id == "a" || id == "b"
    ensures !Blank(id) && ValidApproval(ExampleApproval(id), ExampleProposal(id), 0)
    ensures ValidDecision(ExampleDecision(id), ExampleProposal(id)) && !Blank("receipt")
  {
    var digest := "sha256:" + seq(64, _ => 'a');
    assert digest[..7] == "sha256:";
    assert !IsSpace(id[0]) && !IsSpace("approval"[0]) && !IsSpace("task"[0]) && !IsSpace("reason"[0]);
    assert !IsSpace("receipt"[0]);
  }

  /** Two actions whose executions are given one receipt both reach their handlers, as
      each passes the check for receipts in use before the other has taken it; and the
      first records an outcome. */
  lemma BothEnter() returns (turns: seq<Turn>)
    ensures var rt := Play(turns);
      "b" in rt.records && "receipt" in rt.outcomes
      && rt.records["b"] == Entering(ExampleProposal("b"), ExampleApproval("b"), ExampleDecision("b"), "receipt")
  {
    hide Play, Next, ValidApproval, ValidDecision, ExampleProposal, ExampleApproval, Blank;
    assert Play([]) == NEW_RUNTIME by { EmptyPlay(); }
    ExampleIsValid("a");
    ExampleIsValid("b");
    ExampleNames("a");
    ExampleNames("b");
    assert "a" != "b";
    var pa, aa, da := ExampleProposal("a"), ExampleApproval("a"), ExampleDecision("a");
    var pb, ab, db := ExampleProposal("b"), ExampleApproval("b"), ExampleDecision("b");
    turns := Dispatch([], pa, aa, da, 0, "receipt");
    turns := Dispatch(turns, pb, ab, db, 0, "receipt");
    turns := Enter(turns, pa, aa, da, "receipt");
    turns := Enter(turns, pb, ab, db, "receipt");
    turns := Refuse(turns, pa, aa, da, "receipt");
  }

  lemma EmptyPlay()
    ensures Play([]) == NEW_RUNTIME
  {}

  lemma ExampleNames(id: string)
    ensures ExampleProposal(id).actionId == id && ExampleApproval(id).actionId == id
  {}

  /** Both routes are taken by some run, and the action then stays Running whatever follows. */
  lemma StuckInRunningExists() returns (refused: seq<Turn>, settled: seq<Turn>, id: string)
    ensures forall later: seq<Turn> ::
      && id in Play(refused + later).records && id in Play(settled + later).records
      && Play(refused + later).records[id].state.Running? && Play(refused + later).records[id].point.Rejected?
      && Play(settled + later).records[id].state.Running? && Play(settled + later).records[id].point.Rejected?
  {
    hide Play, ExampleProposal, ExampleApproval, Entering;
    id := "b";
    var turns := BothEnter();
    ExampleNames(id);
    refused := Refuse(turns, ExampleProposal(id), ExampleApproval(id), ExampleDecision(id), "receipt");
    settled := Settle(turns, ExampleProposal(id), ExampleApproval(id), ExampleDecision(id), "receipt");
    forall later: seq<Turn>
      ensures && id in Play(refused + later).records && id in Play(settled + later).records
              && Play(refused + later).records[id].state.Running? && Play(refused + later).records[id].point.Rejected?
              && Play(settled + later).records[id].state.Running? && Play(settled + later).records[id].point.Rejected?
    {
      RejectedRunsForever(refused, later, id);
      RejectedRunsForever(settled, later, id);
    }
  }
}
