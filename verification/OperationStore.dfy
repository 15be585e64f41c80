/** The operation store of coding packs: an event log with a cached operation record, read
    back and cross-checked as a whole. */
module OperationStore {
  import opened Wrappers

  type Id = string

  type Digest = string

  /** A time in milliseconds. */
  type Time = int

  const MAX_LIFETIME := 86400000
  const MAX_SKEW := 300000

  /** What an export is about: the project, and the coding pack as previewed. */
  datatype Binding = Binding(projectId: Id, generation: int, pathsDigest: Digest, fingerprint: Digest, packId: string,
                             manifestDigest: Digest)

  datatype Proposal = Proposal(operationId: Id, binding: Binding, destinationId: Id, destinationFingerprint: Digest,
                               createdAt: Time, expiresAt: Time, digest: Digest)

  datatype Approval = Approval(operationId: Id, proposalDigest: Digest, approvedAt: Time, expiresAt: Time)

  datatype Verdict = Allow | Deny | Error

  datatype Decision = Decision(id: Id, requestDigest: Digest, proposalDigest: Digest, approvalDigest: Digest,
                               verdict: Verdict, reasonCode: string, evaluationStartedAt: Time, decidedAt: Time)

  datatype Start = Start(attemptId: Id, planDigest: Digest, decisionId: Id, requestDigest: Digest,
                         proposalDigest: Digest, manifestDigest: Digest,
                         destinationId: Id, destinationFingerprint: Digest, objectDigest: Digest, stagingName: string,
                         targetName: string, files: int, bytes: int, startedAt: Time)

  datatype Completion = Completion(attemptId: Id, planDigest: Digest, manifestDigest: Digest, targetName: string,
                                   files: int, bytes: int, completedAt: Time)

  datatype Interruption = Interruption(attemptId: Id, planDigest: Digest, phase: string, reasonCode: string,
                                       interruptedAt: Time)

  datatype Payload = Proposed(proposal: Proposal) | Confirmed(approval: Approval) | Decided(decision: Decision)
                   | ExportStarted(start: Start) | ExportCompleted(completion: Completion)
                   | ExportInterrupted(interruption: Interruption)

  datatype Event = Event(id: Id, operationId: Id, sequence: int, recordedAt: Time, payloadDigest: Digest,
                         payload: Payload)

  datatype OperationState = StateProposed | StateConfirmed | DecidedAllow | DecidedDeny | DecidedError
                          | StateStarted | StateCompleted | StateInterrupted

  datatype Operation = Operation(operationId: Id, state: OperationState, binding: Binding, destinationId: Id,
                                 proposalDigest: Digest, createdAt: Time, expiresAt: Time, lastSequence: int)

  datatype Destination = Destination(id: Id, fingerprint: Digest, displayLabel: string, createdAt: Time,
                                     restartAvailable: bool)

  datatype Snapshot = Snapshot(operation: Operation, proposal: Proposal, approval: Option<Approval>,
                               decision: Option<Decision>,
                               started: Option<Start>, completed: Option<Completion>, interrupted: Option<Interruption>,
                               destination: Destination, events: seq<Event>)

  /** `InvalidEvidence` stands for either code a failed check of stored evidence may carry. */
  datatype StoreError = InvalidEvidence | ApprovalMismatch | ProposalExpired | DestinationUnavailable
      | PersistenceFailed | StoreUnavailable

  /** The format checks of identifiers, digests, names and texts, and the digests. The
      request digest is refused for operation ids that look like paths. */
  datatype Host = Host(idOk: Id -> bool, identityOk: (Id, Binding, Id, Digest) -> bool, digestOk: Digest -> bool,
                       formed: Payload -> bool, destinationOk: Destination -> bool, payloadDigest: Payload -> Digest,
                       proposalDigest: (Id, Binding, Id, Digest, Time, Time) -> Digest,
                       requestDigest: (Proposal, Digest) -> Option<Digest>)

  // ---------- checks of single values ----------

  predicate ProposalOk(host: Host, p: Proposal) {
    && host.identityOk(p.operationId, p.binding, p.destinationId, p.digest) && host.digestOk(p.destinationFingerprint)
    && p.createdAt < p.expiresAt <= p.createdAt + MAX_LIFETIME
    && p.digest == host.proposalDigest(p.operationId, p.binding, p.destinationId, p.destinationFingerprint,
                                       p.createdAt, p.expiresAt)
  }

  predicate ApprovalOk(host: Host, a: Approval) {
    host.idOk(a.operationId) && host.digestOk(a.proposalDigest)
    && a.approvedAt < a.expiresAt <= a.approvedAt + MAX_LIFETIME
  }

  /** An approval that belongs to a proposal and does not outlive it. */
  predicate ApprovalFits(a: Approval, p: Proposal) {
    && a.operationId == p.operationId && a.proposalDigest == p.digest
    && a.approvedAt < p.expiresAt && a.expiresAt <= p.expiresAt
  }

  predicate PayloadOk(host: Host, payload: Payload) {
    && host.formed(payload)
    && match payload
       case Proposed(p) => ProposalOk(host, p)
       case Confirmed(a) => ApprovalOk(host, a)
       case _ => true
  }

  predicate EventOk(host: Host, e: Event) {
    && host.idOk(e.id) && host.idOk(e.operationId) && e.sequence >= 1
    && PayloadOk(host, e.payload) && e.payloadDigest == host.payloadDigest(e.payload)
  }

  predicate OperationOk(host: Host, op: Operation) {
    && host.identityOk(op.operationId, op.binding, op.destinationId, op.proposalDigest)
    && op.createdAt < op.expiresAt <= op.createdAt + MAX_LIFETIME && op.lastSequence >= 1
  }

  // ---------- reading back ----------

  predicate SequenceOk(op: Operation, events: seq<Event>) {
    && 1 <= |events| <= 5 && op.lastSequence == |events|
    && (forall i :: 0 <= i < |events| ==> events[i].operationId == op.operationId && events[i].sequence == i + 1)
    && (forall i, j :: 0 <= i < j < |events| ==> events[i].id != events[j].id)
  }

  method CheckSequence(op: Operation, events: seq<Event>) returns (ok: bool)
    ensures ok <==> SequenceOk(op, events)
  {
    if |events| < 1 || |events| > 5 || op.lastSequence != |events| {
      return false;
    }
    var eventIds: set<Id> := {};
    for index := 0 to |events|
      invariant forall id :: id in eventIds <==> exists i :: 0 <= i < index && events[i].id == id
      invariant forall i :: 0 <= i < index ==> events[i].operationId == op.operationId && events[i].sequence == i + 1
      invariant forall i, j :: 0 <= i < j < index ==> events[i].id != events[j].id
    {
      var event := events[index];
      if event.operationId != op.operationId || event.sequence != index + 1 || event.id in eventIds {
        return false;
      }
      eventIds := eventIds + {event.id};
    }
    return true;
  }

  predicate WellShaped(events: seq<Event>) {
    && 1 <= |events| <= 5
    && events[0].payload.Proposed?
    && (|events| > 1 ==> events[1].payload.Confirmed?)
    && (|events| > 2 ==> events[2].payload.Decided?)
    && (|events| > 3 ==> events[3].payload.ExportStarted?)
    && (|events| > 4 ==> events[4].payload.ExportCompleted? || events[4].payload.ExportInterrupted?)
  }

  function DecisionState(v: Verdict): OperationState {
    match v case Allow => DecidedAllow case Deny => DecidedDeny case Error => DecidedError
  }

  function ExpectedState(events: seq<Event>): OperationState
    requires WellShaped(events)
  {
    if |events| == 1 then StateProposed
    else if |events| == 2 then StateConfirmed
    else if |events| == 3 then DecisionState(events[2].payload.decision.verdict)
    else if |events| == 4 then StateStarted
    else if events[4].payload.ExportCompleted? then StateCompleted
    else StateInterrupted
  }

  predicate MatchesProposal(op: Operation, p: Proposal) {
    && op.binding == p.binding && op.destinationId == p.destinationId && op.proposalDigest == p.digest
    && op.createdAt == p.createdAt && op.expiresAt == p.expiresAt
  }

  predicate DestinationMatches(p: Proposal, d: Destination) {
    d.id == p.destinationId && d.fingerprint == p.destinationFingerprint
  }

  predicate ApprovalConsistent(host: Host, p: Proposal, e: Event, a: Approval) {
    && e.recordedAt == a.approvedAt && a.approvedAt >= p.createdAt
    && ApprovalOk(host, a) && ApprovalFits(a, p)
  }

  predicate DecisionConsistent(host: Host, p: Proposal, approvalEvent: Event, a: Approval, e: Event, d: Decision) {
    && d.proposalDigest == p.digest && d.approvalDigest == approvalEvent.payloadDigest
    && host.requestDigest(p, approvalEvent.payloadDigest) == Some(d.requestDigest)
    && e.recordedAt == d.decidedAt
    && a.approvedAt <= d.evaluationStartedAt < a.expiresAt && d.evaluationStartedAt < p.expiresAt
    && d.evaluationStartedAt <= d.decidedAt
    && (!d.verdict.Error? ==> d.decidedAt < a.expiresAt && d.decidedAt < p.expiresAt)
    && host.formed(Decided(d))
  }

  predicate StartConsistent(p: Proposal, a: Approval, d: Decision, e: Event, s: Start) {
    && d.verdict.Allow? && e.recordedAt == s.startedAt
    && s.decisionId == d.id && s.requestDigest == d.requestDigest && s.proposalDigest == p.digest
    && s.manifestDigest == p.binding.manifestDigest
    && s.destinationId == p.destinationId && s.destinationFingerprint == p.destinationFingerprint
    && d.decidedAt <= s.startedAt < p.expiresAt && s.startedAt < a.expiresAt
  }

  predicate CompletionConsistent(s: Start, e: Event, c: Completion) {
    && e.recordedAt == c.completedAt && c.attemptId == s.attemptId && c.planDigest == s.planDigest
    && c.manifestDigest == s.manifestDigest && c.targetName == s.targetName && c.files == s.files && c.bytes == s.bytes
    && s.startedAt <= c.completedAt
  }

  predicate InterruptionConsistent(s: Start, e: Event, i: Interruption) {
    e.recordedAt == i.interruptedAt && i.attemptId == s.attemptId && i.planDigest == s.planDigest
    && s.startedAt <= i.interruptedAt
  }

  /** The record, the events and the destination tell one story. */
  predicate Consistent(host: Host, op: Operation, events: seq<Event>, destination: Destination) {
    && SequenceOk(op, events) && WellShaped(events) && op.state == ExpectedState(events)
    && var p := events[0].payload.proposal;
       && MatchesProposal(op, p) && DestinationMatches(p, destination)
       && events[0].recordedAt == p.createdAt
       && (|events| > 1 ==>
             var a := events[1].payload.approval;
             && ApprovalConsistent(host, p, events[1], a)
             && (|events| > 2 ==>
                   var d := events[2].payload.decision;
                   && DecisionConsistent(host, p, events[1], a, events[2], d)
                   && (|events| > 3 ==>
                         var s := events[3].payload.start;
                         && StartConsistent(p, a, d, events[3], s)
                         && (|events| > 4 ==>
                               match events[4].payload
                               case ExportCompleted(c) => CompletionConsistent(s, events[4], c)
                               case ExportInterrupted(i) => InterruptionConsistent(s, events[4], i)
                               case _ => false))))
  }

  function Reconstruct(host: Host, op: Operation, events: seq<Event>,
                       destination: Destination): Result<Snapshot, StoreError> {
    if !Consistent(host, op, events, destination) then Err(InvalidEvidence)
    else
      Ok(Snapshot(op, events[0].payload.proposal,
                  if |events| > 1 then Some(events[1].payload.approval) else None,
                  if |events| > 2 then Some(events[2].payload.decision) else None,
                  if |events| > 3 then Some(events[3].payload.start) else None,
                  if |events| > 4 && events[4].payload.ExportCompleted? then Some(events[4].payload.completion)
                  else None,
                  if |events| > 4 && events[4].payload.ExportInterrupted? then Some(events[4].payload.interruption)
                  else None, destination, events))
  }

  /** A snapshot is in time order, and what it allows happened before the proposal and the
      approval expired. */
  predicate InOrder(s: Snapshot) {
    && (s.approval.Some? ==>
          && s.proposal.createdAt <= s.approval.value.approvedAt
          && s.approval.value.approvedAt < s.approval.value.expiresAt <= s.proposal.expiresAt)
    && (s.decision.Some? ==>
          && s.approval.Some?
          && s.approval.value.approvedAt <= s.decision.value.evaluationStartedAt <= s.decision.value.decidedAt
          && s.decision.value.evaluationStartedAt < s.approval.value.expiresAt
          && (s.decision.value.verdict != Error ==> s.decision.value.decidedAt < s.approval.value.expiresAt))
    && (s.started.Some? ==>
          && s.approval.Some? && s.decision.Some? && s.decision.value.verdict == Allow
          && s.decision.value.decidedAt <= s.started.value.startedAt < s.approval.value.expiresAt
          && s.started.value.startedAt < s.proposal.expiresAt)
    && (s.completed.Some? ==>
          && s.started.Some? && s.started.value.startedAt <= s.completed.value.completedAt
          && s.completed.value.planDigest == s.started.value.planDigest)
    && (s.interrupted.Some? ==>
          && s.completed.None? && s.started.Some?
          && s.started.value.startedAt <= s.interrupted.value.interruptedAt)
  }

  lemma SnapshotsAreInOrder(host: Host, op: Operation, events: seq<Event>, destination: Destination)
    requires Reconstruct(host, op, events, destination).Ok?
    ensures InOrder(Reconstruct(host, op, events, destination).value)
  {}

  // ---------- the adapter ----------

  datatype Store = Store(operations: map<Id, Operation>, events: map<Id, seq<Event>>,
                         destinations: map<Id, Destination>)

  const EMPTY := Store(map[], map[], map[])

  function RegisterDestination(s: Store, d: Destination): Result<Store, StoreError> {
    if d.id in s.destinations then (if s.destinations[d.id] != d then Err(DestinationUnavailable) else Ok(s))
    else Ok(s.(destinations := s.destinations[d.id := d]))
  }

  function CreateOperation(s: Store, op: Operation, e: Event): Result<Store, StoreError> {
    if op.operationId in s.operations then Err(PersistenceFailed)
    else if op.destinationId !in s.destinations then Err(DestinationUnavailable)
    else Ok(s.(operations := s.operations[op.operationId := op], events := s.events[op.operationId := [e]]))
  }

  predicate Repeats(events: seq<Event>, e: Event) {
    exists i :: 0 <= i < |events| && (events[i].id == e.id || events[i].sequence == e.sequence)
  }

  function Appended(s: Store, op: Operation, e: Event): Store
    requires op.operationId in s.events
  {
    s.(operations := s.operations[op.operationId := op],
       events := s.events[op.operationId := s.events[op.operationId] + [e]])
  }

  function AppendConfirmation(s: Store, op: Operation, e: Event): Result<Store, StoreError> {
    if op.operationId !in s.operations || op.operationId !in s.events then Err(PersistenceFailed)
    else
      var current := s.operations[op.operationId];
      if current.state != StateProposed || current.lastSequence + 1 != e.sequence then Err(PersistenceFailed)
      else if Repeats(s.events[op.operationId], e) then Err(PersistenceFailed)
      else Ok(Appended(s, op, e))
  }

  function AppendDecision(s: Store, op: Operation, e: Event): Result<Store, StoreError> {
    if op.operationId !in s.operations || op.operationId !in s.events then Err(PersistenceFailed)
    else
      var current := s.operations[op.operationId];
      if current.state != StateConfirmed || current.lastSequence != 2 || op.lastSequence != 3 || e.sequence != 3
         || Repeats(s.events[op.operationId], e) then Err(PersistenceFailed)
      else Ok(Appended(s, op, e))
  }

  /** Reading an operation: everything is checked again. */
  function Get(host: Host, s: Store, id: Id): Result<Option<Snapshot>, StoreError> {
    if !host.idOk(id) then Err(InvalidEvidence)
    else if id !in s.operations then Ok(None)
    else if id !in s.events || s.operations[id].destinationId !in s.destinations then Err(StoreUnavailable)
    else
      var op, events, destination := s.operations[id], s.events[id], s.destinations[s.operations[id].destinationId];
      if !OperationOk(host, op) || !(forall i :: 0 <= i < |events| ==> EventOk(host, events[i]))
        then Err(InvalidEvidence)
      else if !host.destinationOk(destination) then Err(DestinationUnavailable)
      else match Reconstruct(host, op, events, destination)
        case Err(error) => Err(error)
        case Ok(snapshot) => Ok(Some(snapshot))
  }

  // ---------- the operations ----------

  /** What a write hands to the adapter. */
  datatype Write = Write(operation: Operation, event: Event)

  function PrepareProposal(host: Host, preview: Binding, confirmed: Binding, destination: Destination, operationId: Id,
                           eventId: Id, createdAt: Time, expiresAt: Time, now: Time): Result<Write, StoreError>
  {
    var digest := host.proposalDigest(operationId, preview, destination.id, destination.fingerprint, createdAt,
                                      expiresAt);
    var p := Proposal(operationId, preview, destination.id, destination.fingerprint, createdAt, expiresAt, digest);
    var e := Event(eventId, operationId, 1, createdAt, host.payloadDigest(Proposed(p)), Proposed(p));
    var op := Operation(operationId, StateProposed, preview, destination.id, digest, createdAt, expiresAt, 1);
    if preview != confirmed then Err(InvalidEvidence)
    else if !host.destinationOk(destination) then Err(DestinationUnavailable)
    else if createdAt > now + MAX_SKEW || !host.idOk(operationId) then Err(InvalidEvidence)
    else if !ProposalOk(host, p) || !EventOk(host, e) || !OperationOk(host, op) then Err(InvalidEvidence)
    else Ok(Write(op, e))
  }

  /** Confirming what was read: the approval must be the proposal's and still valid. */
  function PrepareConfirmation(host: Host, s: Snapshot, a: Approval, eventId: Id,
                               now: Time): Result<Write, StoreError> {
    var e := Event(eventId, s.operation.operationId, 2, a.approvedAt, host.payloadDigest(Confirmed(a)), Confirmed(a));
    var op := s.operation.(state := StateConfirmed, lastSequence := 2);
    if s.operation.state != StateProposed || s.approval.Some? then Err(ApprovalMismatch)
    else if s.proposal.expiresAt <= now then Err(ProposalExpired)
    else if !ApprovalOk(host, a) || a.expiresAt <= now || !ApprovalFits(a, s.proposal) then Err(ApprovalMismatch)
    else if !EventOk(host, e) || !OperationOk(host, op) then Err(InvalidEvidence)
    else Ok(Write(op, e))
  }

  function PrepareDecision(host: Host, s: Snapshot, d: Decision, eventId: Id, now: Time): Result<Write, StoreError> {
    var e := Event(eventId, s.operation.operationId, 3, d.decidedAt, host.payloadDigest(Decided(d)), Decided(d));
    var op := s.operation.(state := DecisionState(d.verdict), lastSequence := 3);
    if s.operation.state != StateConfirmed || s.approval.None? || s.decision.Some? || |s.events| != 2
       || !s.events[1].payload.Confirmed? then Err(ApprovalMismatch)
    else
      var a, evidence := s.approval.value, s.events[1].payloadDigest;
      if d.proposalDigest != s.proposal.digest || d.approvalDigest != evidence
         || d.evaluationStartedAt < a.approvedAt || d.evaluationStartedAt >= a.expiresAt
         || d.evaluationStartedAt >= s.proposal.expiresAt || d.decidedAt < d.evaluationStartedAt
         || (!d.verdict.Error? && (d.decidedAt >= a.expiresAt || d.decidedAt >= s.proposal.expiresAt))
           then Err(ApprovalMismatch)
      else if host.requestDigest(s.proposal, evidence).None? then Err(InvalidEvidence)
      else if host.requestDigest(s.proposal, evidence) != Some(d.requestDigest) then Err(ApprovalMismatch)
      else if d.evaluationStartedAt > now + MAX_SKEW || d.decidedAt > now + MAX_SKEW then Err(ApprovalMismatch)
      else if !EventOk(host, e) || !OperationOk(host, op) then Err(InvalidEvidence)
      else Ok(Write(op, e))
  }
}
