/** The session ledger: its entries, and the projector that folds an active path
    into the state of the session.

    A metadata or payload field is kept as what the projector can read from it:
    a text field is Some(text) exactly when the stored value is a string, a
    generation is Some(n) exactly when it is an integer. */
module SessionLedger {
  import opened Wrappers
  import opened Texts

  datatype EventType =
    | SessionCreated | UserMessage | ModelMessage | ToolRequested | ToolCompleted
    | ActionProposed | ActionApproved | ActionDecided | ActionDenied
    | ActionStarted | ActionCompleted | ActionFailed
    | PatchProposed | PatchApproved | PatchStarted | PatchApplied | PatchRejected
    | CommandProposed | CommandApproved | CommandDenied | CommandStarted | CommandCompleted
    | ArtifactCreated | AgentStateChanged
    | SessionInterrupted | RecoveryRequired | RecoveryCompleted
    | DeliveryCompleted | SessionCompleted | SessionFailed | SessionCancelled | SessionLimitReached

  datatype Status = Active | NeedsRecovery | Interrupted | Completed | Failed | Cancelled | LimitReached

  datatype Kind = Patch | Command | Action

  datatype Decision = Allow | Deny | Hold | Fault

  datatype Reason = PatchReapproval | CommandReapproval | PlainInterruption

  /** What the recovery service can tell about the text of `runtimeStatus`:
      absent or empty, one of the names it lists, a name every plain object
      inherits, or another text. */
  datatype RuntimeStatus =
    | NoStatus | IdleStatus
    | DoneStatus | FailedStatus | CancelledStatus | LimitReachedStatus
    | WaitingForPatchApproval | WaitingForCommandApproval
    | ActiveOperation
    | InheritedName
    | OtherStatus(text: string)

  datatype Meta = Meta(
    actionId: Option<string>,
    taskId: Option<string>,
    proposalDigest: Option<string>,
    approvalId: Option<string>,
    approvalGeneration: Option<int>,
    decisionId: Option<string>,
    decision: Option<Decision>,
    reasonCode: Option<string>,
    policyVersion: Option<string>,
    decisionSchemaVersion: Option<string>,
    agentFuseCommit: Option<string>,
    decidedAt: Option<string>,
    decidedAtIsDate: bool,
    executionReceiptId: Option<string>,
    runtimeStatus: RuntimeStatus)

  const NO_META := Meta(None, None, None, None, None, None, None, None,
                        None, None, None, None, false, None, NoStatus)

  datatype Payload =
    | Fields(actionId: Option<string>, reason: Reason, proposalDigest: Option<string>,
             decision: Option<Decision>, reasonCode: Option<string>, decidedAt: Option<string>,
             evidenceIsRecord: bool, rest: string)
    | NotARecord(rest: string)

  datatype Entry = Entry(
    id: string,
    sessionId: string,
    parent: Option<string>,
    sequence: int,
    kind: EventType,
    payload: Payload,
    meta: Meta,
    createdAt: int)

  datatype Pending = Pending(
    kind: Kind,
    actionId: string,
    taskId: Option<string>,
    proposalDigest: Option<string>,
    proposalEntryId: string,
    payload: Payload,
    approved: bool,
    started: bool,
    settled: bool,
    approvalId: Option<string>,
    approvalGeneration: int,
    decisionRecorded: bool,
    decisionId: Option<string>,
    decision: Option<Decision>,
    reasonCode: Option<string>,
    decidedAt: Option<string>,
    policyVersion: Option<string>,
    decisionSchemaVersion: Option<string>,
    agentFuseCommit: Option<string>,
    executionReceiptId: Option<string>,
    recoveryRequired: bool,
    stale: bool)

  datatype Requirement = Requirement(reason: Reason, unknownOrInterrupted: bool)

  /** The variables of the projector's loop. */
  datatype State = State(
    seen: set<string>,
    approvalIds: set<string>,
    decisionIds: set<string>,
    last: Option<int>,
    status: Status,
    pending: Option<Pending>,
    requirement: Option<Requirement>,
    messageCount: nat,
    toolCallCount: nat,
    patchCount: nat,
    commandCount: nat,
    artifactCount: nat,
    lastCommandResult: Option<Payload>,
    completedAt: Option<int>)

  const INITIAL := State({}, {}, {}, None, Active, None, None, 0, 0, 0, 0, 0, None, None)

  datatype LedgerError =
    | NoCreation | DuplicateEntry | SecondCreation | NotOrdered | TerminalSession
    | PendingNotSettled | NoPending | MissingActionId | OtherAction | OtherKind
    | AlreadyStarted | AlreadyApproved | AlreadyDecided | NotApproved | NotStarted
    | MissingApprovalId | ReusedApprovalId | MissingGeneration | WrongGeneration | OtherApproval
    | NotDecidable | MissingTask | OtherTask | MissingText | ReusedDecisionId | BadDecision
    | OtherDigest | BadDate | BadEvidence | NoAllowDecision | OtherDecision
    | MissingReceipt | OtherReceipt | WrongRecoveryKind

  type Stepped = Result<State, LedgerError>

  // ---------- classification of events ----------

  predicate Terminal(status: Status) {
    status.Completed? || status.Failed? || status.Cancelled? || status.LimitReached?
  }

  predicate IsProposal(kind: EventType) { kind.ActionProposed? || kind.PatchProposed? || kind.CommandProposed? }

  predicate IsApproval(kind: EventType) { kind.ActionApproved? || kind.PatchApproved? || kind.CommandApproved? }

  predicate IsDenial(kind: EventType) { kind.ActionDenied? || kind.PatchRejected? || kind.CommandDenied? }

  predicate IsStart(kind: EventType) { kind.ActionStarted? || kind.PatchStarted? || kind.CommandStarted? }

  predicate IsSettlement(kind: EventType) {
    kind.ActionCompleted? || kind.PatchApplied? || kind.CommandCompleted? || kind.ActionFailed?
  }

  predicate IsMaskingTerminal(kind: EventType) {
    kind.SessionCompleted? || kind.DeliveryCompleted? || kind.SessionFailed?
    || kind.SessionCancelled? || kind.SessionLimitReached?
  }

  /** The action kind an event type names, by the prefix of its name. */
  function EntryKind(kind: EventType): Option<Kind> {
    match kind
    case PatchProposed | PatchApproved | PatchStarted | PatchApplied | PatchRejected => Some(Patch)
    case CommandProposed | CommandApproved | CommandDenied | CommandStarted | CommandCompleted => Some(Command)
    case ActionProposed | ActionApproved | ActionDecided | ActionDenied
       | ActionStarted | ActionCompleted | ActionFailed => Some(Action)
    case _ => None
  }

  // ---------- reading an entry ----------

  function NonBlank(field: Option<string>): Option<string> {
    if field.Some? && !Blank(field.value) then field else None
  }

  function ActionIdOf(e: Entry): Option<string> {
    if e.meta.actionId.Some? then e.meta.actionId
    else if e.payload.Fields? then e.payload.actionId
    else None
  }

  function ApprovalIdOf(e: Entry): Option<string> { NonBlank(e.meta.approvalId) }

  function GenerationOf(e: Entry): Option<int> {
    if e.meta.approvalGeneration.Some? && e.meta.approvalGeneration.value >= 0
    then e.meta.approvalGeneration else None
  }

  function ReceiptOf(e: Entry): Option<string> { NonBlank(e.meta.executionReceiptId) }

  function ReasonOf(e: Entry): Reason {
    if e.payload.Fields? then e.payload.reason else PlainInterruption
  }

  function ProposalDigestOf(e: Entry): Option<string> {
    if NonBlank(e.meta.proposalDigest).Some? then e.meta.proposalDigest
    else if e.payload.Fields? then NonBlank(e.payload.proposalDigest)
    else None
  }

  /** A restart recovery that asks for a new approval. */
  predicate IsReapproval(e: Entry) { e.kind.RecoveryRequired? && !ReasonOf(e).PlainInterruption? }

  /** An entry that takes the current approval away. */
  predicate ClearsApproval(e: Entry) { e.kind.RecoveryRequired? || e.kind.SessionInterrupted? }

  // ---------- the checks the projector makes ----------

  /** The pending action the entry must name, or the reason it does not. */
  function RequirePending(pending: Option<Pending>, e: Entry): Result<Pending, LedgerError> {
    if pending.None? then Err(NoPending)
    else if ActionIdOf(e).None? || ActionIdOf(e).value == "" then Err(MissingActionId)
    else if ActionIdOf(e).value != pending.value.actionId then Err(OtherAction)
    else Ok(pending.value)
  }

  function RequireOwnKind(pending: Option<Pending>, e: Entry): Result<Pending, LedgerError> {
    match RequirePending(pending, e)
    case Err(error) => Err(error)
    case Ok(p) =>
      if EntryKind(e.kind).Some? && p.kind != EntryKind(e.kind).value then Err(OtherKind) else Ok(p)
  }

  /** The entry carries the pending action's own approval id and generation. */
  function ApprovalBinding(p: Pending, e: Entry): Option<LedgerError> {
    if ApprovalIdOf(e).None? then Some(MissingApprovalId)
    else if ApprovalIdOf(e) != p.approvalId then Some(OtherApproval)
    else if GenerationOf(e).None? then Some(MissingGeneration)
    else if GenerationOf(e).value != p.approvalGeneration then Some(WrongGeneration)
    else None
  }

  function RequireStarted(p: Pending, e: Entry): Option<LedgerError> {
    if !p.approved then Some(NotApproved)
    else if !p.started then Some(NotStarted)
    else if p.settled then Some(AlreadyStarted)
    else if ApprovalBinding(p, e).Some? then ApprovalBinding(p, e)
    else if ReceiptOf(e).None? then Some(MissingReceipt)
    else if ReceiptOf(e) != p.executionReceiptId then Some(OtherReceipt)
    else None
  }

  predicate StartedUnsettled(pending: Option<Pending>) {
    pending.Some? && pending.value.started && !pending.value.settled
  }

  /** A command decision must repeat the proposal digest and its evidence in the payload. */
  function CommandDecisionEvidence(p: Pending, e: Entry): Option<LedgerError> {
    if NonBlank(e.meta.proposalDigest).None? then Some(MissingText)
    else if p.proposalDigest.None? || !IsSha256(p.proposalDigest.value)
            || !IsSha256(e.meta.proposalDigest.value)
            || e.meta.proposalDigest != p.proposalDigest then Some(OtherDigest)
    else if NonBlank(e.meta.reasonCode).None? || NonBlank(e.meta.decidedAt).None? then Some(MissingText)
    else if !e.meta.decidedAtIsDate then Some(BadDate)
    else if !e.payload.Fields? || e.payload.actionId != e.meta.actionId
            || e.payload.proposalDigest != e.meta.proposalDigest
            || e.payload.decision != e.meta.decision
            || e.payload.reasonCode != e.meta.reasonCode
            || e.payload.decidedAt != e.meta.decidedAt
            || !e.payload.evidenceIsRecord then Some(BadEvidence)
    else None
  }

  // ---------- one loop iteration ----------

  function Propose(s: State, e: Entry, kind: Kind): Stepped {
    if s.pending.Some? then Err(PendingNotSettled)
    else if ActionIdOf(e).None? || ActionIdOf(e).value == "" then Err(MissingActionId)
    else Ok(s.(pending := Some(Pending(
              kind, ActionIdOf(e).value, NonBlank(e.meta.taskId), ProposalDigestOf(e), e.id, e.payload,
              false, false, false, None, 0, false, None, None, None, None, None, None, None, None,
              false, false))))
  }

  function Approve(s: State, e: Entry): Stepped {
    match RequireOwnKind(s.pending, e)
    case Err(error) => Err(error)
    case Ok(p) =>
      if p.started || p.settled then Err(AlreadyStarted)
      else if p.approved then Err(AlreadyApproved)
      else if ApprovalIdOf(e).None? then Err(MissingApprovalId)
      else if ApprovalIdOf(e).value in s.approvalIds then Err(ReusedApprovalId)
      else if GenerationOf(e).None? then Err(MissingGeneration)
      else if GenerationOf(e).value != p.approvalGeneration then Err(WrongGeneration)
      else Ok(s.(approvalIds := s.approvalIds + {ApprovalIdOf(e).value},
                 pending := Some(p.(approved := true, approvalId := ApprovalIdOf(e), recoveryRequired := false)),
                 requirement := None,
                 status := Active))
  }

  function Decide(s: State, e: Entry): Stepped {
    match RequirePending(s.pending, e)
    case Err(error) => Err(error)
    case Ok(p) =>
      if !p.kind.Action? && !p.kind.Command? then Err(NotDecidable)
      else if !p.approved then Err(NotApproved)
      else if p.started || p.settled then Err(AlreadyStarted)
      else if p.decisionRecorded then Err(AlreadyDecided)
      else if ApprovalBinding(p, e).Some? then Err(ApprovalBinding(p, e).value)
      else if NonBlank(e.meta.taskId).None? then Err(MissingText)
      else if p.kind.Command? && p.taskId.None? then Err(MissingTask)
      else if p.taskId.Some? && e.meta.taskId != p.taskId then Err(OtherTask)
      else if NonBlank(e.meta.decisionId).None? then Err(MissingText)
      else if e.meta.decisionId.value in s.decisionIds then Err(ReusedDecisionId)
      else if e.meta.decision.None? || (p.kind.Command? && e.meta.decision.value.Hold?) then Err(BadDecision)
      else if NonBlank(e.meta.policyVersion).None? || NonBlank(e.meta.decisionSchemaVersion).None?
              || NonBlank(e.meta.agentFuseCommit).None? then Err(MissingText)
      else if p.kind.Command? && CommandDecisionEvidence(p, e).Some? then Err(CommandDecisionEvidence(p, e).value)
      else
        var recorded := s.(decisionIds := s.decisionIds + {e.meta.decisionId.value});
        if !e.meta.decision.value.Allow? then Ok(recorded.(pending := None, requirement := None))
        else Ok(recorded.(pending := Some(p.(
                            decisionRecorded := true,
                            decisionId := e.meta.decisionId,
                            decision := e.meta.decision,
                            reasonCode := if p.kind.Command? then e.meta.reasonCode else None,
                            decidedAt := if p.kind.Command? then e.meta.decidedAt else None,
                            policyVersion := e.meta.policyVersion,
                            decisionSchemaVersion := e.meta.decisionSchemaVersion,
                            agentFuseCommit := e.meta.agentFuseCommit))))
  }

  function DenyPending(s: State, e: Entry): Stepped {
    match RequireOwnKind(s.pending, e)
    case Err(error) => Err(error)
    case Ok(p) =>
      if p.started || p.settled then Err(AlreadyStarted)
      else Ok(s.(pending := None, requirement := None))
  }

  function Start(s: State, e: Entry): Stepped {
    match RequireOwnKind(s.pending, e)
    case Err(error) => Err(error)
    case Ok(p) =>
      if !p.approved then Err(NotApproved)
      else if p.started || p.settled then Err(AlreadyStarted)
      else if ApprovalBinding(p, e).Some? then Err(ApprovalBinding(p, e).value)
      else if !p.kind.Patch? && (!p.decisionRecorded || p.decision != Some(Allow)) then Err(NoAllowDecision)
      else if !p.kind.Patch? && NonBlank(e.meta.decisionId).None? then Err(MissingText)
      else if !p.kind.Patch? && e.meta.decisionId != p.decisionId then Err(OtherDecision)
      else if ReceiptOf(e).None? then Err(MissingReceipt)
      else Ok(s.(pending := Some(p.(started := true, executionReceiptId := ReceiptOf(e)))))
  }

  /** ACTION_FAILED settles an action of any kind and keeps the recovery requirement. */
  function Settle(s: State, e: Entry): Stepped {
    var checked := if e.kind.ActionFailed? then RequirePending(s.pending, e) else RequireOwnKind(s.pending, e);
    match checked
    case Err(error) => Err(error)
    case Ok(p) =>
      if RequireStarted(p, e).Some? then Err(RequireStarted(p, e).value)
      else Ok(s.(pending := None,
                 requirement := if e.kind.ActionFailed? then s.requirement else None,
                 lastCommandResult := if e.kind.CommandCompleted? then Some(e.payload) else s.lastCommandResult))
  }

  function Recover(s: State, e: Entry): Stepped {
    var reason := ReasonOf(e);
    var noted := s.(requirement := Some(Requirement(reason, reason.PlainInterruption?)),
                    status := if reason.PlainInterruption? then Interrupted else NeedsRecovery);
    if s.pending.None? then Ok(noted)
    else
      var p := s.pending.value;
      if reason.PlainInterruption? then
        Ok(noted.(pending := Some(p.(recoveryRequired := !p.started, approved := false, approvalId := None))))
      else if (reason.PatchReapproval? && !p.kind.Patch?) || (reason.CommandReapproval? && !p.kind.Command?) then
        Err(WrongRecoveryKind)
      else if p.started || p.settled then Err(AlreadyStarted)
      else if GenerationOf(e).None? then Err(MissingGeneration)
      else if GenerationOf(e).value != p.approvalGeneration + 1 then Err(WrongGeneration)
      else Ok(noted.(pending := Some(p.(
                       approvalGeneration := p.approvalGeneration + 1,
                       recoveryRequired := !p.started, approved := false, approvalId := None,
                       decisionRecorded := false, decisionId := None, decision := None,
                       reasonCode := None, decidedAt := None, policyVersion := None,
                       decisionSchemaVersion := None, agentFuseCommit := None))))
  }

  function Interrupt(s: State): State {
    s.(status := Interrupted,
       requirement := Some(Requirement(PlainInterruption, true)),
       pending := if s.pending.None? then None
                  else Some(s.pending.value.(recoveryRequired := !s.pending.value.started,
                                             approved := false, approvalId := None)))
  }

  function EndStatus(kind: EventType): Status
    requires IsMaskingTerminal(kind)
  {
    match kind
    case SessionCompleted | DeliveryCompleted => Completed
    case SessionFailed => Failed
    case SessionCancelled => Cancelled
    case SessionLimitReached => LimitReached
  }

  function End(s: State, e: Entry): Stepped
    requires IsMaskingTerminal(e.kind)
  {
    if StartedUnsettled(s.pending) then Err(PendingNotSettled)
    else Ok(s.(status := EndStatus(e.kind), completedAt := Some(e.createdAt), pending := None, requirement := None))
  }

  function Apply(s: State, e: Entry): Stepped {
    match e.kind
    case UserMessage | ModelMessage => Ok(s.(messageCount := s.messageCount + 1))
    case ToolRequested => Ok(s.(toolCallCount := s.toolCallCount + 1))
    case ActionProposed => Propose(s, e, Action)
    case PatchProposed => Propose(s.(patchCount := s.patchCount + 1), e, Patch)
    case CommandProposed => Propose(s.(commandCount := s.commandCount + 1), e, Command)
    case ActionApproved | PatchApproved | CommandApproved => Approve(s, e)
    case ActionDecided => Decide(s, e)
    case ActionDenied | PatchRejected | CommandDenied => DenyPending(s, e)
    case ActionStarted | PatchStarted | CommandStarted => Start(s, e)
    case ActionCompleted | PatchApplied | CommandCompleted | ActionFailed => Settle(s, e)
    case ArtifactCreated => Ok(s.(artifactCount := s.artifactCount + 1))
    case RecoveryRequired => Recover(s, e)
    case RecoveryCompleted =>
      if s.pending.Some? then Err(PendingNotSettled) else Ok(s.(requirement := None, status := Active))
    case SessionInterrupted => Ok(Interrupt(s))
    case SessionCompleted | DeliveryCompleted | SessionFailed | SessionCancelled | SessionLimitReached => End(s, e)
    case SessionCreated | ToolCompleted | AgentStateChanged => Ok(s)
  }

  /** One iteration of the projector's loop. */
  function Step(s: State, e: Entry): Stepped {
    if e.id in s.seen then Err(DuplicateEntry)
    else if s.last.Some? && e.kind.SessionCreated? then Err(SecondCreation)
    else if s.last.Some? && e.sequence <= s.last.value then Err(NotOrdered)
    else if Terminal(s.status) then Err(TerminalSession)
    else Apply(s.(seen := s.seen + {e.id}, last := Some(e.sequence)), e)
  }

  /** The loop's state after a whole path. */
  function Run(path: seq<Entry>): Stepped {
    if path == [] then Ok(INITIAL)
    else match Run(path[..|path| - 1])
      case Err(error) => Err(error)
      case Ok(s) => Step(s, path[|path| - 1])
  }

  /** What the projector returns. */
  datatype Projection = Projection(
    status: Status,
    lastEntry: Entry,
    pending: Option<Pending>,
    requirement: Option<Requirement>,
    messageCount: nat,
    toolCallCount: nat,
    patchCount: nat,
    commandCount: nat,
    artifactCount: nat,
    lastCommandResult: Option<Payload>,
    startedAt: int,
    updatedAt: int,
    completedAt: Option<int>)

  function Summary(path: seq<Entry>, s: State): Projection
    requires path != []
  {
    Projection(s.status, path[|path| - 1], s.pending, s.requirement,
               s.messageCount, s.toolCallCount, s.patchCount, s.commandCount, s.artifactCount,
               s.lastCommandResult, path[0].createdAt, path[|path| - 1].createdAt, s.completedAt)
  }

  function Projected(path: seq<Entry>): Result<Projection, LedgerError> {
    if path == [] || !path[0].kind.SessionCreated? then Err(NoCreation)
    else match Run(path)
      case Err(error) => Err(error)
      case Ok(s) => Ok(Summary(path, s))
  }

  ghost predicate Accepted(path: seq<Entry>) {
    path != [] && path[0].kind.SessionCreated? && Run(path).Ok?
  }

  /** The projector: one pass over the path, updating the loop's variables. */
  method Project(path: seq<Entry>) returns (result: Result<Projection, LedgerError>)
    ensures result == Projected(path)
  {
    if |path| == 0 || !path[0].kind.SessionCreated? {
      return Err(NoCreation);
    }
    var state := INITIAL;
    for index := 0 to |path|
      invariant Run(path[..index]) == Ok(state)
    {
      assert path[..index + 1][..index] == path[..index];
      var next := Step(state, path[index]);
      if next.Err? {
        RunFailsForward(path, index + 1);
        return Err(next.error);
      }
      state := next.value;
    }
    assert path[..|path|] == path;
    return Ok(Summary(path, state));
  }

  /** Once an entry is refused, every longer path fails with the same error. */
  lemma {:induction false} RunFailsForward(path: seq<Entry>, n: nat)
    requires n <= |path| && Run(path[..n]).Err?
    ensures Run(path) == Run(path[..n])
    decreases |path| - n
  {
    if n == |path| {
      assert path[..n] == path;
    } else {
      assert path[..n + 1][..n] == path[..n];
      RunFailsForward(path, n + 1);
    }
  }

  lemma {:induction false} PrefixAccepted(path: seq<Entry>, n: nat)
    requires n <= |path| && Run(path).Ok?
    ensures Run(path[..n]).Ok?
  {
    if Run(path[..n]).Err? { RunFailsForward(path, n); }
  }
}
