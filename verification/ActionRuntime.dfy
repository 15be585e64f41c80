/** The action runtime: propose, approve, decide, dispatch and settle, cut at every
    point where an asynchronous call can be suspended. Between two cuts the code runs
    without interruption, so each turn below is one atomic step, and a run is any
    sequence of turns of any number of actions. */
module ActionRuntime {
  import opened Wrappers
  import opened Texts

  // ---------- the state machine ----------

  datatype ActionState =
    | Proposed | AwaitingApproval | Approved | Evaluating | Allowed | Denied | Held | DecisionError
    | Starting | Running | Completed | Failed | Cancelled | Interrupted

  function Successors(state: ActionState): set<ActionState> {
    match state
    case Proposed => {AwaitingApproval, Cancelled}
    case AwaitingApproval => {Approved, Cancelled}
    case Approved => {Evaluating, Cancelled}
    case Evaluating => {Allowed, Denied, Held, DecisionError, Cancelled}
    case Allowed => {Starting, Cancelled}
    case Starting => {Running, DecisionError, Cancelled}
    case Running => {Completed, Failed, Cancelled, Interrupted}
    case Denied | Held | DecisionError | Completed | Failed | Cancelled | Interrupted => {}
  }

  predicate TerminalState(state: ActionState) { Successors(state) == {} }

  /** The states a cancel moves to Cancelled. */
  predicate Cancellable(state: ActionState) {
    state.Proposed? || state.AwaitingApproval? || state.Approved? || state.Evaluating?
    || state.Allowed? || state.Starting?
  }

  // ---------- evidence ----------

  datatype Proposal = Proposal(actionId: string, taskId: string, digest: string, actionType: string)

  datatype Approval = Approval(
    approvalId: string, actionId: string, taskId: string, digest: string,
    generation: int, approvedAt: int, expiresAt: int)

  datatype Verdict = Allow | Deny | Hold | Fault

  /** `formed` holds when the summary, policy version, evidence and time are valid. */
  datatype Decision = Decision(decisionId: string, actionId: string, verdict: Verdict, reasonCode: string, formed: bool)

  datatype Started = Started(actionId: string, approvalId: string, decisionId: string, receipt: string, startedAt: int)

  datatype OutcomeStatus = DidComplete | DidFail | DidCancel | UnknownOrInterrupted

  datatype Outcome = Outcome(actionId: string, receipt: string, status: OutcomeStatus)

  predicate ValidApproval(a: Approval, p: Proposal, now: int) {
    && !Blank(a.approvalId) && !Blank(a.actionId) && !Blank(a.taskId) && IsSha256(a.digest)
    && a.expiresAt > now && a.expiresAt > a.approvedAt
    && a.actionId == p.actionId && a.taskId == p.taskId && a.digest == p.digest
    && a.generation == 1
  }

  predicate ValidDecision(d: Decision, p: Proposal) {
    !Blank(d.decisionId) && !Blank(d.actionId) && d.actionId == p.actionId && !Blank(d.reasonCode) && d.formed
  }

  predicate ValidStarted(s: Started, p: Proposal, a: Approval, d: Decision, now: int) {
    && !Blank(s.actionId) && !Blank(s.approvalId) && !Blank(s.decisionId) && !Blank(s.receipt)
    && s.actionId == p.actionId && s.approvalId == a.approvalId && ValidApproval(a, p, now)
    && d.verdict.Allow? && s.decisionId == d.decisionId
  }

  function LocalDecision(p: Proposal, reason: string, formed: bool): Decision {
    Decision("local-" + reason + "-" + p.actionId, p.actionId, Fault, reason, formed)
  }

  // ---------- records ----------

  /** Where the one execution of an action is suspended, with what it has captured. */
  datatype Point =
    | NotExecuted
    | BeforeRequest(approval: Approval)
    | Deciding(approval: Approval)
    | FailingClosed
    | Persisting(approval: Approval, decision: Decision)
    | Dispatching(approval: Approval, decision: Decision, started: Started)
    | Handling(approval: Approval, decision: Decision, started: Started)
    | Settling(started: Started, outcome: Outcome)
    | Rejected
    | Resolved

  /** `history` lists every state the action has been in. */
  datatype Record = Record(
    proposal: Proposal,
    state: ActionState,
    history: seq<ActionState>,
    approval: Option<Approval>,
    decision: Option<Decision>,
    started: Option<Started>,
    outcome: Option<Outcome>,
    aborted: bool,
    point: Point)

  /** What hooks, decider and handler observe, in order. */
  datatype Event =
    | ApprovalHook(actionId: string, approval: Approval)
    | Accepted(actionId: string, decision: Decision)
    | DecisionKept(actionId: string, decision: Decision)
    | Dispatched(actionId: string, started: Started)
    | Entered(actionId: string, approval: Approval, decision: Decision, started: Started, now: int)
    | SettlementFailed(actionId: string, receipt: string)

  datatype Runtime = Runtime(
    records: map<string, Record>,
    outcomes: map<string, Outcome>,
    decisionIds: set<string>,
    receipts: set<string>,
    approving: map<nat, Approval>,
    trace: seq<Event>,
    issued: set<string>)

  const NEW_RUNTIME := Runtime(map[], map[], {}, {}, map[], [], {})

  /** What a resumed execution, an execute or a cancel changes. */
  datatype Change = Change(
    record: Record,
    events: seq<Event>,
    decisionId: Option<string>,
    receipt: Option<string>,
    outcome: Option<Outcome>)

  function Plain(record: Record): Change { Change(record, [], None, None, None) }

  /** A transition: refused when the table does not have it. */
  function Moved(r: Record, next: ActionState): Option<Record> {
    if next in Successors(r.state) then Some(r.(state := next, history := r.history + [next])) else None
  }

  /** Ends the execution in a state, or rejects it when the transition is refused. */
  function EndIn(r: Record, next: ActionState): Record {
    match Moved(r, next)
    case Some(moved) => moved.(point := Resolved)
    case None => r.(point := Rejected)
  }

  /** One resumption of an execution, an execute call, or a cancel. Every `now` is a
      reading of the clock; `formed` says whether a local decision fits its limits. */
  datatype Op =
    | Execute(now: int, registered: bool, formed: bool)
    | RequestHook(ok: bool)
    | Decided(answer: Option<Decision>, formed: bool)
    | FailClosedHook(ok: bool)
    | DecisionHook(ok: bool, now: int, startedAt: int, later: int, receipt: string)
    | DispatchHook(ok: bool, now: int)
    | HandlerDone(result: HandlerResult)
    | SettlementHook(ok: bool)
    | Cancel

  datatype HandlerResult = Returned(fits: bool) | Threw(abortError: bool)

  function FailClosed(rt: Runtime, r: Record, reason: string, formed: bool): Change {
    var d := LocalDecision(r.proposal, reason, formed);
    if !ValidDecision(d, r.proposal) || d.decisionId in rt.decisionIds then Plain(r.(point := Rejected))
    else Change(r.(decision := Some(d), point := FailingClosed), [], Some(d.decisionId), None, None)
  }

  function OnExecute(rt: Runtime, r: Record, now: int, registered: bool, formed: bool): Change {
    if !r.point.NotExecuted? then Plain(r)
    else if !r.state.Approved? || r.approval.None? || !ValidApproval(r.approval.value, r.proposal, now) then
      Plain(r.(point := Rejected))
    else if r.aborted then Plain(EndIn(r, Cancelled))
    else match Moved(r, Evaluating)
      case None => Plain(r.(point := Rejected))
      case Some(moved) =>
        if !registered then FailClosed(rt, moved, "unknown_action", formed)
        else Plain(moved.(point := BeforeRequest(r.approval.value)))
  }

  function OnDecided(rt: Runtime, r: Record, answer: Option<Decision>, formed: bool): Change
    requires r.point.Deciding?
  {
    var d := if answer.Some? then answer.value else LocalDecision(r.proposal, "decision_provider_failed", formed);
    if !ValidDecision(d, r.proposal) then
      FailClosed(rt, r, if d.actionId != r.proposal.actionId && !Blank(d.actionId) && !Blank(d.decisionId)
                        then "decision_mismatch" else "invalid_decision", formed)
    else if d.decisionId in rt.decisionIds then FailClosed(rt, r, "duplicate_decision", formed)
    else Change(r.(decision := Some(d), point := Persisting(r.point.approval, d)),
                [Accepted(r.proposal.actionId, d)], Some(d.decisionId), None, None)
  }

  function OnDecisionHook(rt: Runtime, r: Record, op: Op): Change
    requires r.point.Persisting? && op.DecisionHook?
  {
    var a, d := r.point.approval, r.point.decision;
    if !op.ok then
      Plain(EndIn(r.(decision := Some(LocalDecision(r.proposal, "decision_persistence_failed", true))), DecisionError))
    else
      var kept := [DecisionKept(r.proposal.actionId, d)];
      if r.aborted then Change(EndIn(r, Cancelled), kept, None, None, None)
      else if d.verdict.Deny? then Change(EndIn(r, Denied), kept, None, None, None)
      else if d.verdict.Hold? then Change(EndIn(r, Held), kept, None, None, None)
      else if d.verdict.Fault? then Change(EndIn(r, DecisionError), kept, None, None, None)
      else if !ValidApproval(a, r.proposal, op.now) then Change(r.(point := Rejected), kept, None, None, None)
      else match Moved(r, Allowed)
        case None => Change(r.(point := Rejected), kept, None, None, None)
        case Some(allowed) =>
          var starting := allowed.(state := Starting, history := allowed.history + [Starting]);
          var s := Started(r.proposal.actionId, a.approvalId, d.decisionId, op.receipt, op.startedAt);
          if !ValidStarted(s, r.proposal, a, d, op.later) || r.started.Some? || s.receipt in rt.receipts
          then Change(starting.(point := Rejected), kept, None, None, None)
          else Change(starting.(point := Dispatching(a, d, s)), kept, None, None, None)
  }

  function OnDispatchHook(r: Record, ok: bool, now: int): Change
    requires r.point.Dispatching?
  {
    var a, d, s := r.point.approval, r.point.decision, r.point.started;
    var id := r.proposal.actionId;
    if !ok then Plain(r.(point := Rejected))
    else if !ValidApproval(a, r.proposal, now) then Change(r.(point := Rejected), [Dispatched(id, s)], None, None, None)
    else if r.aborted then Change(EndIn(r, Cancelled), [Dispatched(id, s)], None, None, None)
    else match Moved(r.(started := Some(s)), Running)
      case None =>
        Change(r.(started := Some(s), point := Rejected), [Dispatched(id, s)], None, Some(s.receipt), None)
      case Some(running) =>
        Change(running.(point := Handling(a, d, s)), [Dispatched(id, s), Entered(id, a, d, s, now)],
               None, Some(s.receipt), None)
  }

  /** Settlement could not be validated or stored: the action ends interrupted. */
  function Interrupt(rt: Runtime, r: Record, s: Started): Change {
    var id := r.proposal.actionId;
    var failed := [SettlementFailed(id, s.receipt)];
    if s.receipt in rt.outcomes then Change(r.(point := Rejected), failed, None, None, None)
    else
      var o := Outcome(id, s.receipt, UnknownOrInterrupted);
      Change(EndIn(r.(outcome := Some(o)), Interrupted), failed, None, None, Some(o))
  }

  function OnHandlerDone(rt: Runtime, r: Record, result: HandlerResult): Change
    requires r.point.Handling?
  {
    var s := r.point.started;
    var status := if result.Returned? then DidComplete
                  else if r.aborted || result.abortError then DidCancel else DidFail;
    if result.Returned? && !result.fits then Interrupt(rt, r, s)
    else Plain(r.(point := Settling(s, Outcome(r.proposal.actionId, s.receipt, status))))
  }

  function SettledState(status: OutcomeStatus): ActionState {
    match status
    case DidComplete => Completed
    case DidFail => Failed
    case DidCancel => Cancelled
    case UnknownOrInterrupted => Interrupted
  }

  function OnSettlementHook(rt: Runtime, r: Record, ok: bool): Change
    requires r.point.Settling?
  {
    var s, o := r.point.started, r.point.outcome;
    if !ok then Interrupt(rt, r, s)
    else if o.receipt in rt.outcomes then Plain(r.(point := Rejected))
    else Change(EndIn(r.(outcome := Some(o)), SettledState(o.status)), [], None, None, Some(o))
  }

  function OnCancel(r: Record): Change {
    var aborted := r.(aborted := true);
    if Cancellable(r.state) then
      Plain(aborted.(state := Cancelled, history := aborted.history + [Cancelled]))
    else Plain(aborted)
  }

  /** A resumption that does not fit where the execution is suspended changes nothing. */
  function OnOp(rt: Runtime, r: Record, op: Op): Change {
    match op
    case Execute(now, registered, formed) => OnExecute(rt, r, now, registered, formed)
    case RequestHook(ok) =>
      if !r.point.BeforeRequest? then Plain(r)
      else if ok then Plain(r.(point := Deciding(r.point.approval)))
      else Plain(r.(point := Rejected))
    case Decided(answer, formed) => if r.point.Deciding? then OnDecided(rt, r, answer, formed) else Plain(r)
    case FailClosedHook(ok) =>
      if !r.point.FailingClosed? then Plain(r)
      else if ok then Plain(EndIn(r, DecisionError))
      else
        var replaced := r.(decision := Some(LocalDecision(r.proposal, "decision_persistence_failed", true)));
        Plain(EndIn(replaced, DecisionError))
    case DecisionHook(_, _, _, _, _) => if r.point.Persisting? then OnDecisionHook(rt, r, op) else Plain(r)
    case DispatchHook(ok, now) => if r.point.Dispatching? then OnDispatchHook(r, ok, now) else Plain(r)
    case HandlerDone(result) => if r.point.Handling? then OnHandlerDone(rt, r, result) else Plain(r)
    case SettlementHook(ok) => if r.point.Settling? then OnSettlementHook(rt, r, ok) else Plain(r)
    case Cancel => OnCancel(r)
  }

  function Issued(op: Op): set<string> { if op.DecisionHook? then {op.receipt} else {} }

  function Changed(rt: Runtime, id: string, op: Op, c: Change): Runtime {
    Runtime(rt.records[id := c.record],
            if c.outcome.Some? then rt.outcomes[c.outcome.value.receipt := c.outcome.value] else rt.outcomes,
            if c.decisionId.Some? then rt.decisionIds + {c.decisionId.value} else rt.decisionIds,
            if c.receipt.Some? then rt.receipts + {c.receipt.value} else rt.receipts,
            rt.approving,
            rt.trace + c.events,
            rt.issued + Issued(op))
  }

  // ---------- turns ----------

  /** One atomic step of a run. `valid` tells whether a proposal passes its own checks. */
  datatype Turn =
    | Propose(proposal: Proposal, valid: bool)
    | BeginApprove(call: nat, approval: Approval, now: int)
    | EndApprove(call: nat, ok: bool)
    | OnAction(actionId: string, op: Op)

  function NewRecord(p: Proposal): Record {
    Record(p, AwaitingApproval, [Proposed, AwaitingApproval], None, None, None, None, false, NotExecuted)
  }

  /** The approval is stored before the transition is checked, so an overlapping
      approval can replace it without moving the state. */
  function WithApproval(r: Record, a: Approval): Record {
    var stored := r.(approval := Some(a));
    match Moved(stored, Approved)
    case Some(moved) => moved
    case None => stored
  }

  function Next(rt: Runtime, turn: Turn): Runtime {
    match turn
    case Propose(p, valid) =>
      if !valid || Blank(p.actionId) || p.actionId in rt.records then rt
      else rt.(records := rt.records[p.actionId := NewRecord(p)])
    case BeginApprove(call, a, now) =>
      if call in rt.approving || a.actionId !in rt.records then rt
      else
        var r := rt.records[a.actionId];
        if !r.state.AwaitingApproval? || !ValidApproval(a, r.proposal, now) then rt
        else rt.(approving := rt.approving[call := a])
    case EndApprove(call, ok) =>
      if call !in rt.approving then rt
      else
        var a := rt.approving[call];
        var ended := rt.(approving := rt.approving - {call});
        if !ok || a.actionId !in rt.records then ended
        else ended.(records := rt.records[a.actionId := WithApproval(rt.records[a.actionId], a)],
                    trace := rt.trace + [ApprovalHook(a.actionId, a)])
    case OnAction(id, op) =>
      if id !in rt.records then rt else Changed(rt, id, op, OnOp(rt, rt.records[id], op))
  }

  function Play(turns: seq<Turn>): Runtime {
    if turns == [] then NEW_RUNTIME else Next(Play(turns[..|turns| - 1]), turns[|turns| - 1])
  }
}
