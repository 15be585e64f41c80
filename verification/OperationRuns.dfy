/** Runs of the operation store: any number of tasks read, decide and write in any
    interleaving. What is stored can be read back, exactly when two things the writers do
    not check hold. */
module OperationRuns {
  import opened Wrappers
  import opened OperationStore

  type Task = nat

  /** The store, and the writes that tasks have prepared from what they read. */
  datatype System = System(store: Store, confirming: map<Task, Write>, deciding: map<Task, Write>)

  datatype Turn =
    | Register(destination: Destination)
    | Create(preview: Binding, confirmed: Binding, destination: Destination, operationId: Id, eventId: Id,
             createdAt: Time, expiresAt: Time, now: Time)
    | ReadToConfirm(task: Task, approval: Approval, eventId: Id, now: Time)
    | WriteConfirmation(task: Task)
    | ReadToDecide(task: Task, operationId: Id, decision: Decision, eventId: Id, now: Time)
    | WriteDecision(task: Task)

  const START := System(EMPTY, map[], map[])

  function Stored(s: System, result: Result<Store, StoreError>): System {
    match result case Ok(store) => s.(store := store) case Err(_) => s
  }

  function ReadConfirm(host: Host, s: System, task: Task, a: Approval, eventId: Id, now: Time): System {
    if !ApprovalOk(host, a) then s
    else match Get(host, s.store, a.operationId)
      case Ok(Some(snapshot)) =>
        (match PrepareConfirmation(host, snapshot, a, eventId, now)
         case Ok(write) => s.(confirming := s.confirming[task := write])
         case Err(_) => s)
      case _ => s
  }

  function ReadDecide(host: Host, s: System, task: Task, id: Id, d: Decision, eventId: Id, now: Time): System {
    if !host.formed(Decided(d)) then s
    else match Get(host, s.store, id)
      case Ok(Some(snapshot)) =>
        (match PrepareDecision(host, snapshot, d, eventId, now)
         case Ok(write) => s.(deciding := s.deciding[task := write])
         case Err(_) => s)
      case _ => s
  }

  function Next(host: Host, s: System, turn: Turn): System {
    match turn
    case Register(d) => if host.destinationOk(d) then Stored(s, RegisterDestination(s.store, d)) else s
    case Create(preview, confirmed, destination, operationId, eventId, createdAt, expiresAt, now) =>
      (match PrepareProposal(host, preview, confirmed, destination, operationId, eventId, createdAt, expiresAt, now)
       case Ok(write) => Stored(s, CreateOperation(s.store, write.operation, write.event))
       case Err(_) => s)
    case ReadToConfirm(task, approval, eventId, now) => ReadConfirm(host, s, task, approval, eventId, now)
    case WriteConfirmation(task) =>
      if task !in s.confirming then s
      else
        var write := s.confirming[task];
        Stored(s.(confirming := s.confirming - {task}), AppendConfirmation(s.store, write.operation, write.event))
    case ReadToDecide(task, id, decision, eventId, now) => ReadDecide(host, s, task, id, decision, eventId, now)
    case WriteDecision(task) =>
      if task !in s.deciding then s
      else
        var write := s.deciding[task];
        Stored(s.(deciding := s.deciding - {task}), AppendDecision(s.store, write.operation, write.event))
  }

  function Play(host: Host, turns: seq<Turn>): System {
    if turns == [] then START else Next(host, Play(host, turns[..|turns| - 1]), turns[|turns| - 1])
  }

  // ---------- the invariant ----------

  /** The record of a proposal in a state. */
  function OperationOf(p: Proposal, state: OperationState, sequence: int): Operation {
    Operation(p.operationId, state, p.binding, p.destinationId, p.digest, p.createdAt, p.expiresAt, sequence)
  }

  /** A proposal event as it is created. */
  predicate ProposedWell(host: Host, id: Id, e: Event) {
    && EventOk(host, e) && e.payload.Proposed? && e.operationId == id && e.sequence == 1
    && e.recordedAt == e.payload.proposal.createdAt && e.payload.proposal.operationId == id
  }

  /** A confirmation event as it is appended. */
  predicate ConfirmedWell(host: Host, p: Proposal, e: Event) {
    && EventOk(host, e) && e.payload.Confirmed? && e.operationId == p.operationId && e.sequence == 2
    && e.recordedAt == e.payload.approval.approvedAt && ApprovalFits(e.payload.approval, p)
  }

  /** A decision event as it is appended. */
  predicate DecidedWell(host: Host, p: Proposal, approvalEvent: Event, e: Event) {
    && EventOk(host, e) && e.payload.Decided? && e.operationId == p.operationId && e.sequence == 3
    && approvalEvent.payload.Confirmed?
    && DecisionConsistent(host, p, approvalEvent, approvalEvent.payload.approval, e, e.payload.decision)
  }

  predicate Backdated(p: Proposal, a: Approval) { a.approvedAt < p.createdAt }

  predicate DistinctIds(events: seq<Event>) { forall i, j :: 0 <= i < j < |events| ==> events[i].id != events[j].id }

  /** One operation as the writers leave it. */
  predicate OperationSound(host: Host, op: Operation, events: seq<Event>, destination: Destination) {
    && 1 <= |events| <= 3 && WellShaped(events) && DistinctIds(events)
    && ProposedWell(host, op.operationId, events[0])
    && var p := events[0].payload.proposal;
       && op == OperationOf(p, ExpectedState(events), |events|) && OperationOk(host, op)
       && destination.id == p.destinationId && host.destinationOk(destination)
       && (|events| > 1 ==> ConfirmedWell(host, p, events[1]) && DestinationMatches(p, destination))
       && (|events| > 2 ==> DecidedWell(host, p, events[1], events[2]) && !Backdated(p, events[1].payload.approval))
  }

  predicate Linked(s: Store, id: Id) {
    id in s.operations && id in s.events && s.operations[id].destinationId in s.destinations
  }

  predicate StoreSound(host: Host, s: Store) {
    && (forall id <- s.operations :: Linked(s, id) && s.operations[id].operationId == id
          && OperationSound(host, s.operations[id], s.events[id], s.destinations[s.operations[id].destinationId]))
    && (forall id <- s.events :: id in s.operations)
    && (forall id <- s.destinations :: s.destinations[id].id == id && host.destinationOk(s.destinations[id]))
  }

  /** A prepared confirmation agrees with the proposal it was read from. */
  predicate ConfirmationReady(host: Host, s: Store, w: Write) {
    var id := w.operation.operationId;
    && Linked(s, id) && s.events[id] != [] && s.events[id][0].payload.Proposed?
    && var p := s.events[id][0].payload.proposal;
       && w.operation == OperationOf(p, StateConfirmed, 2) && OperationOk(host, w.operation)
       && ConfirmedWell(host, p, w.event)
       && p.destinationId in s.destinations && DestinationMatches(p, s.destinations[p.destinationId])
  }

  predicate DecisionReady(host: Host, s: Store, w: Write) {
    var id := w.operation.operationId;
    && Linked(s, id) && |s.events[id]| > 1 && s.events[id][0].payload.Proposed? && s.events[id][1].payload.Confirmed?
    && var p := s.events[id][0].payload.proposal;
       && w.event.payload.Decided?
       && w.operation == OperationOf(p, DecisionState(w.event.payload.decision.verdict), 3)
       && OperationOk(host, w.operation)
       && DecidedWell(host, p, s.events[id][1], w.event) && !Backdated(p, s.events[id][1].payload.approval)
  }

  ghost predicate Sound(host: Host, s: System) {
    && StoreSound(host, s.store)
    && (forall t <- s.confirming :: ConfirmationReady(host, s.store, s.confirming[t]))
    && (forall t <- s.deciding :: DecisionReady(host, s.store, s.deciding[t]))
  }

  /** Stores only grow: destinations stay, and event lists get longer. */
  ghost predicate Extends(s: Store, t: Store) {
    && (forall id <- s.operations | Linked(s, id) ::
          Linked(t, id) && s.events[id] <= t.events[id]
          && s.operations[id].destinationId == t.operations[id].destinationId)
    && (forall id <- s.destinations :: id in t.destinations && t.destinations[id] == s.destinations[id])
  }

  lemma ReadyStays(host: Host, s: Store, t: Store, w: Write)
    requires Extends(s, t)
    ensures ConfirmationReady(host, s, w) ==> ConfirmationReady(host, t, w)
    ensures DecisionReady(host, s, w) ==> DecisionReady(host, t, w)
  {
    hide ConfirmedWell, DecidedWell, OperationOk, DestinationMatches;
  }

  lemma SystemStays(host: Host, s: System, t: System)
    requires Sound(host, s) && StoreSound(host, t.store) && Extends(s.store, t.store)
    requires forall k <- t.confirming :: k in s.confirming && s.confirming[k] == t.confirming[k]
    requires forall k <- t.deciding :: k in s.deciding && s.deciding[k] == t.deciding[k]
    ensures Sound(host, t)
  {
    hide StoreSound, ConfirmationReady, DecisionReady, Extends;
    forall k <- t.confirming ensures ConfirmationReady(host, t.store, t.confirming[k]) {
      ReadyStays(host, s.store, t.store, s.confirming[k]);
    }
    forall k <- t.deciding ensures DecisionReady(host, t.store, t.deciding[k]) {
      ReadyStays(host, s.store, t.store, s.deciding[k]);
    }
  }

  // ---------- what reading yields ----------

  /** What a sound operation lacks to be read: the registered destination may have another
      fingerprint, and the approval may be older than the proposal. */
  predicate Readable(events: seq<Event>, destination: Destination) {
    && |events| > 0 && events[0].payload.Proposed?
    && DestinationMatches(events[0].payload.proposal, destination)
    && (|events| > 1 ==>
          events[1].payload.Confirmed? && !Backdated(events[0].payload.proposal, events[1].payload.approval))
  }

  lemma SoundReconstructsExactly(host: Host, op: Operation, events: seq<Event>, destination: Destination)
    requires OperationSound(host, op, events, destination)
    ensures Consistent(host, op, events, destination) <==> Readable(events, destination)
  {
    if |events| > 1 { assert ApprovalOk(host, events[1].payload.approval); }
  }

  lemma SoundEventsAreOk(host: Host, op: Operation, events: seq<Event>, destination: Destination)
    requires OperationSound(host, op, events, destination)
    ensures OperationOk(host, op) && (forall i :: 0 <= i < |events| ==> EventOk(host, events[i]))
    ensures host.idOk(op.operationId)
  {
    hide EventOk, OperationOk, DecisionConsistent;
    assert host.idOk(events[0].operationId) by { EventIdOk(host, events[0]); }
  }

  lemma EventIdOk(host: Host, e: Event)
    requires EventOk(host, e)
    ensures host.idOk(e.operationId)
  {}

  /** A stored operation can be read back exactly when it is readable, whatever was
      interleaved; what is read is what is stored. */
  lemma GetExactly(host: Host, s: Store, id: Id)
    requires StoreSound(host, s) && id in s.operations
    ensures Get(host, s, id).Ok? <==> Readable(s.events[id], s.destinations[s.operations[id].destinationId])
    ensures Get(host, s, id).Ok? ==>
              && Get(host, s, id).value.Some?
              && Get(host, s, id).value.value.operation == s.operations[id]
              && Get(host, s, id).value.value.events == s.events[id]
              && Get(host, s, id).value.value.destination == s.destinations[s.operations[id].destinationId]
              && Consistent(host, s.operations[id], s.events[id], s.destinations[s.operations[id].destinationId])
  {
    hide OperationSound, OperationOk, EventOk, Consistent, Readable;
    var op, events, destination := s.operations[id], s.events[id], s.destinations[s.operations[id].destinationId];
    SoundReconstructsExactly(host, op, events, destination);
    SoundEventsAreOk(host, op, events, destination);
  }

  // ---------- every turn keeps the invariant ----------

  lemma ReadConfirmIsReady(host: Host, s: Store, snapshot: Snapshot, a: Approval, eventId: Id, now: Time)
    requires StoreSound(host, s) && Get(host, s, a.operationId) == Ok(Some(snapshot))
    requires PrepareConfirmation(host, snapshot, a, eventId, now).Ok?
    ensures ConfirmationReady(host, s, PrepareConfirmation(host, snapshot, a, eventId, now).value)
  {
    hide EventOk, OperationOk, ApprovalOk, Get;
    var id := a.operationId;
    GetOfSome(host, s, id, snapshot);
    GetExactly(host, s, id);
    var events := s.events[id];
    assert OperationSound(host, s.operations[id], events, s.destinations[s.operations[id].destinationId]);
    assert snapshot.proposal == events[0].payload.proposal by { SnapshotParts(host, s, id, snapshot); }
  }

  lemma GetOfSome(host: Host, s: Store, id: Id, snapshot: Snapshot)
    requires Get(host, s, id) == Ok(Some(snapshot))
    ensures id in s.operations
  {}

  lemma SnapshotParts(host: Host, s: Store, id: Id, snapshot: Snapshot)
    requires StoreSound(host, s) && id in s.operations && Get(host, s, id) == Ok(Some(snapshot))
    ensures var events := s.events[id];
            && WellShaped(events) && snapshot.proposal == events[0].payload.proposal
            && (|events| > 1 ==> snapshot.approval == Some(events[1].payload.approval))
  {
    hide OperationSound, EventOk, OperationOk;
    GetExactly(host, s, id);
  }

  lemma ReadDecideIsReady(host: Host, s: Store, id: Id, snapshot: Snapshot, d: Decision, eventId: Id, now: Time)
    requires StoreSound(host, s) && Get(host, s, id) == Ok(Some(snapshot)) && host.formed(Decided(d))
    requires PrepareDecision(host, snapshot, d, eventId, now).Ok?
    ensures DecisionReady(host, s, PrepareDecision(host, snapshot, d, eventId, now).value)
  {
    hide EventOk, OperationOk, ApprovalOk, Get, ConfirmedWell, ProposedWell;
    GetOfSome(host, s, id, snapshot);
    GetExactly(host, s, id);
    SnapshotParts(host, s, id, snapshot);
    var events := s.events[id];
    assert OperationSound(host, s.operations[id], events, s.destinations[s.operations[id].destinationId]);
    ProposalIds(host, id, events[0]);
  }

  lemma ProposalIds(host: Host, id: Id, e: Event)
    requires ProposedWell(host, id, e)
    ensures e.payload.Proposed? && e.payload.proposal.operationId == id
  {}

  lemma ConfirmedOperation(host: Host, op: Operation, events: seq<Event>, destination: Destination, w: Write)
    requires OperationSound(host, op, events, destination) && op.state == StateProposed && !Repeats(events, w.event)
    requires var p := events[0].payload.proposal;
             && w.operation == OperationOf(p, StateConfirmed, 2) && OperationOk(host, w.operation)
             && ConfirmedWell(host, p, w.event) && DestinationMatches(p, destination)
    ensures OperationSound(host, w.operation, events + [w.event], destination)
  {
    hide EventOk, OperationOk;
    assert |events| == 1;
  }

  lemma DecidedOperation(host: Host, op: Operation, events: seq<Event>, destination: Destination, w: Write)
    requires OperationSound(host, op, events, destination) && op.state == StateConfirmed && !Repeats(events, w.event)
    requires |events| > 1
    requires var p := events[0].payload.proposal;
             && w.event.payload.Decided?
             && w.operation == OperationOf(p, DecisionState(w.event.payload.decision.verdict), 3)
             && OperationOk(host, w.operation)
             && DecidedWell(host, p, events[1], w.event) && !Backdated(p, events[1].payload.approval)
    ensures OperationSound(host, w.operation, events + [w.event], destination)
  {
    hide EventOk, OperationOk, ConfirmedWell, DecisionConsistent;
    assert |events| == 2;
    assert Repeats(events, w.event) <==>
        w.event.id == events[0].id || w.event.id == events[1].id || w.event.sequence == events[0].sequence
                                         || w.event.sequence == events[1].sequence;
  }

  /** One operation changed and sound again leaves a sound, longer store. */
  lemma AppendedIsSound(host: Host, s: Store, op: Operation, e: Event)
    requires StoreSound(host, s) && op.operationId in s.operations
    requires op.destinationId == s.operations[op.operationId].destinationId
    requires OperationSound(host, op, s.events[op.operationId] + [e], s.destinations[op.destinationId])
    ensures StoreSound(host, Appended(s, op, e)) && Extends(s, Appended(s, op, e))
  {
    hide OperationSound;
    var t := Appended(s, op, e);
    forall id <- t.operations ensures Linked(t, id) && t.operations[id].operationId == id
      && OperationSound(host, t.operations[id], t.events[id], t.destinations[t.operations[id].destinationId])
    {
      assert id in s.operations;
      if id == op.operationId { assert t.operations[id] == op && t.events[id] == s.events[id] + [e]; }
    }
  }

  lemma WriteConfirmationIsSound(host: Host, s: Store, w: Write)
    requires StoreSound(host, s) && ConfirmationReady(host, s, w) && AppendConfirmation(s, w.operation, w.event).Ok?
    ensures var t := AppendConfirmation(s, w.operation, w.event).value; StoreSound(host, t) && Extends(s, t)
  {
    hide OperationOk, ConfirmedWell, Repeats;
    var id := w.operation.operationId;
    var op, events := s.operations[id], s.events[id];
    assert OperationSound(host, op, events, s.destinations[op.destinationId]);
    ConfirmedOperation(host, op, events, s.destinations[op.destinationId], w);
    AppendedIsSound(host, s, w.operation, w.event);
  }

  lemma WriteDecisionIsSound(host: Host, s: Store, w: Write)
    requires StoreSound(host, s) && DecisionReady(host, s, w) && AppendDecision(s, w.operation, w.event).Ok?
    ensures var t := AppendDecision(s, w.operation, w.event).value; StoreSound(host, t) && Extends(s, t)
  {
    hide OperationOk, DecidedWell, ConfirmedWell, Repeats;
    var id := w.operation.operationId;
    var op, events := s.operations[id], s.events[id];
    assert OperationSound(host, op, events, s.destinations[op.destinationId]);
    DecidedOperation(host, op, events, s.destinations[op.destinationId], w);
    AppendedIsSound(host, s, w.operation, w.event);
  }

  lemma CreateIsSound(host: Host, s: Store, w: Write, destination: Destination)
    requires StoreSound(host, s) && CreateOperation(s, w.operation, w.event).Ok?
    requires ProposedWell(host, w.operation.operationId, w.event) && OperationOk(host, w.operation)
    requires w.operation == OperationOf(w.event.payload.proposal, StateProposed, 1)
    ensures var t := CreateOperation(s, w.operation, w.event).value; StoreSound(host, t) && Extends(s, t)
  {
    hide ProposedWell, OperationOk, OperationSound;
    var t, op := CreateOperation(s, w.operation, w.event).value, w.operation;
    assert OperationSound(host, op, [w.event], s.destinations[op.destinationId]) by {
      NewIsSound(host, w, s.destinations[op.destinationId]);
    }
    forall id <- t.operations ensures Linked(t, id) && t.operations[id].operationId == id
      && OperationSound(host, t.operations[id], t.events[id], t.destinations[t.operations[id].destinationId])
    {
      if id != op.operationId { assert id in s.operations; }
    }
  }

  lemma NewIsSound(host: Host, w: Write, destination: Destination)
    requires ProposedWell(host, w.operation.operationId, w.event) && OperationOk(host, w.operation)
    requires w.operation == OperationOf(w.event.payload.proposal, StateProposed, 1)
    requires destination.id == w.operation.destinationId && host.destinationOk(destination)
    ensures OperationSound(host, w.operation, [w.event], destination)
  {
    hide OperationOk, EventOk;
  }

  lemma RegisterIsSound(host: Host, s: Store, d: Destination)
    requires StoreSound(host, s) && host.destinationOk(d) && RegisterDestination(s, d).Ok?
    ensures var t := RegisterDestination(s, d).value; StoreSound(host, t) && Extends(s, t)
  {
    hide OperationSound;
  }

  lemma ReadKeepsSound(host: Host, s: System, turn: Turn)
    requires Sound(host, s) && (turn.ReadToConfirm? || turn.ReadToDecide?)
    ensures Sound(host, Next(host, s, turn))
  {
    hide StoreSound, ConfirmationReady, DecisionReady, Get, PrepareConfirmation, PrepareDecision;
    var read := Get(host, s.store, if turn.ReadToConfirm? then turn.approval.operationId else turn.operationId);
    if read.Ok? && read.value.Some? {
      var snapshot := read.value.value;
      if turn.ReadToConfirm? {
        if PrepareConfirmation(host, snapshot, turn.approval, turn.eventId, turn.now).Ok? {
          ReadConfirmIsReady(host, s.store, snapshot, turn.approval, turn.eventId, turn.now);
        }
      } else if PrepareDecision(host, snapshot, turn.decision, turn.eventId, turn.now).Ok?
                && host.formed(Decided(turn.decision))
      {
        ReadDecideIsReady(host, s.store, turn.operationId, snapshot, turn.decision, turn.eventId, turn.now);
      }
    }
  }

  lemma ExtendsItself(s: Store)
    ensures Extends(s, s)
  {}

  lemma NextKeepsSound(host: Host, s: System, turn: Turn)
    requires Sound(host, s)
    ensures Sound(host, Next(host, s, turn)) && Extends(s.store, Next(host, s, turn).store)
  {
    hide StoreSound, ConfirmationReady, DecisionReady, Extends, AppendConfirmation, AppendDecision, CreateOperation,
         RegisterDestination, PrepareProposal, ReadConfirm, ReadDecide;
    var t := Next(host, s, turn);
    ExtendsItself(s.store);
    match turn
    case Register(d) =>
      if host.destinationOk(d) && RegisterDestination(s.store, d).Ok? { RegisterIsSound(host, s.store, d); }
      SystemStays(host, s, t);
    case Create(preview, confirmed, destination, operationId, eventId, createdAt, expiresAt, now) =>
      var prepared := PrepareProposal(host, preview, confirmed, destination, operationId, eventId, createdAt,
                                      expiresAt, now);
      if prepared.Ok? && CreateOperation(s.store, prepared.value.operation, prepared.value.event).Ok? {
        PreparedProposal(host, preview, confirmed, destination, operationId, eventId, createdAt, expiresAt, now);
        CreateIsSound(host, s.store, prepared.value, destination);
      }
      SystemStays(host, s, t);
    case WriteConfirmation(task) =>
      if task in s.confirming && AppendConfirmation(s.store, s.confirming[task].operation,
                                                    s.confirming[task].event).Ok? {
        WriteConfirmationIsSound(host, s.store, s.confirming[task]);
      }
      SystemStays(host, s, t);
    case WriteDecision(task) =>
      if task in s.deciding && AppendDecision(s.store, s.deciding[task].operation, s.deciding[task].event).Ok? {
        WriteDecisionIsSound(host, s.store, s.deciding[task]);
      }
      SystemStays(host, s, t);
    case _ =>
      ReadKeepsSound(host, s, turn);
      ReadKeepsStore(host, s, turn);
  }

  lemma ReadKeepsStore(host: Host, s: System, turn: Turn)
    requires turn.ReadToConfirm? || turn.ReadToDecide?
    ensures Next(host, s, turn).store == s.store
  {
    hide Get, PrepareConfirmation, PrepareDecision;
  }

  lemma PreparedProposal(host: Host, preview: Binding, confirmed: Binding, destination: Destination, operationId: Id,
                         eventId: Id, createdAt: Time, expiresAt: Time, now: Time)
    requires PrepareProposal(host, preview, confirmed, destination, operationId, eventId, createdAt, expiresAt, now).Ok?
    ensures var w := PrepareProposal(host, preview, confirmed, destination, operationId, eventId, createdAt, expiresAt,
                                     now).value;
            && ProposedWell(host, w.operation.operationId, w.event) && OperationOk(host, w.operation)
            && w.operation == OperationOf(w.event.payload.proposal, StateProposed, 1)
            && w.event.payload.proposal.destinationFingerprint == destination.fingerprint
  {}

  lemma {:induction false} PlayIsSound(host: Host, turns: seq<Turn>)
    ensures Sound(host, Play(host, turns))
  {
    hide Sound, Next;
    if turns == [] {
      assert Sound(host, START) by { StartIsSound(host); }
    } else {
      PlayIsSound(host, turns[..|turns| - 1]);
      NextKeepsSound(host, Play(host, turns[..|turns| - 1]), turns[|turns| - 1]);
    }
  }

  lemma StartIsSound(host: Host)
    ensures Sound(host, START)
  {}

  // ---------- main results ----------

  /** In every interleaving, each stored operation has one proposal, then at most one
      confirmation and at most one decision, numbered from 1; its record says where it
      stands; and it can be read back exactly when the registered destination is the one
      proposed and the approval is not older than the proposal. What is read is in time
      order, each step before what allows it expired. */
  lemma StoredOperations(host: Host, turns: seq<Turn>, id: Id)
    requires id in Play(host, turns).store.operations
    ensures var s := Play(host, turns).store;
            && Linked(s, id)
            && var op, events := s.operations[id], s.events[id];
               var destination := s.destinations[s.operations[id].destinationId];
               && 1 <= |events| <= 3 && WellShaped(events) && SequenceOk(op, events)
               && op.state == ExpectedState(events)
               && (Get(host, s, id).Ok? <==> Readable(events, destination))
               && (|events| == 3 ==> Get(host, s, id).Ok?)
               && (Get(host, s, id).Ok? ==> Get(host, s, id).value.Some? && InOrder(Get(host, s, id).value.value))
  {
    hide Get, OperationSound, SequenceOk, WellShaped, Readable, ExpectedState, InOrder;
    PlayIsSound(host, turns);
    var s := Play(host, turns).store;
    GetExactly(host, s, id);
    if Get(host, s, id).Ok? { ReadIsInOrder(host, s, id); }
    SoundShape(host, s.operations[id], s.events[id], s.destinations[s.operations[id].destinationId]);
  }

  lemma ReadIsInOrder(host: Host, s: Store, id: Id)
    requires Get(host, s, id).Ok? && Get(host, s, id).value.Some?
    ensures InOrder(Get(host, s, id).value.value)
  {
    hide Reconstruct, InOrder, OperationOk, EventOk;
    SnapshotsAreInOrder(host, s.operations[id], s.events[id], s.destinations[s.operations[id].destinationId]);
  }

  lemma SoundShape(host: Host, op: Operation, events: seq<Event>, destination: Destination)
    requires OperationSound(host, op, events, destination)
    ensures 1 <= |events| <= 3 && WellShaped(events) && SequenceOk(op, events) && op.state == ExpectedState(events)
    ensures |events| == 3 ==> Readable(events, destination)
  {
    hide EventOk, OperationOk, DecisionConsistent, ApprovalFits;
  }

  /** Events are only added, and destinations never change. */
  lemma {:induction false} StoreOnlyGrows(host: Host, turns: seq<Turn>, more: seq<Turn>)
    ensures Extends(Play(host, turns).store, Play(host, turns + more).store)
    decreases |more|
  {
    hide Next, Sound, Extends;
    if more == [] {
      assert turns + more == turns;
      ExtendsItself(Play(host, turns).store);
    } else {
      var front := turns + more[..|more| - 1];
      assert (turns + more)[..|turns + more| - 1] == front;
      StoreOnlyGrows(host, turns, more[..|more| - 1]);
      PlayIsSound(host, front);
      NextKeepsSound(host, Play(host, front), more[|more| - 1]);
      StoreIsLinked(host, turns);
      ExtendsTransitive(Play(host, turns).store, Play(host, front).store, Play(host, turns + more).store);
    }
  }

  lemma StoreIsLinked(host: Host, turns: seq<Turn>)
    ensures var s := Play(host, turns).store; forall id <- s.operations :: Linked(s, id)
  {
    hide OperationSound;
    PlayIsSound(host, turns);
  }

  lemma ExtendsTransitive(a: Store, b: Store, c: Store)
    requires Extends(a, b) && Extends(b, c)
    ensures Extends(a, c)
  {}

  function EventsOf(s: Store, id: Id): seq<Event> { if id in s.events then s.events[id] else [] }

  /** Of racing confirmations, and of racing decisions, one is stored: once there, it stays
      as it is and no other joins it. */
  lemma OneConfirmation(host: Host, turns: seq<Turn>, more: seq<Turn>, id: Id)
    ensures var before, after := EventsOf(Play(host, turns).store, id), EventsOf(Play(host, turns + more).store, id);
            && before <= after && |after| <= 3
            && (forall i :: 0 <= i < |after| ==>
                  (after[i].payload.Confirmed? <==> i == 1) && (after[i].payload.Decided? <==> i == 2))
  {
    hide Sound, Next, Get, SequenceOk;
    StoreIsLinked(host, turns);
    StoreOnlyGrows(host, turns, more);
    EventsHaveOperations(host, turns);
    EventsHaveOperations(host, turns + more);
    if id in Play(host, turns + more).store.operations { StoredOperations(host, turns + more, id); }
  }

  lemma EventsHaveOperations(host: Host, turns: seq<Turn>)
    ensures var s := Play(host, turns).store; forall id <- s.events :: id in s.operations
  {
    hide OperationSound;
    PlayIsSound(host, turns);
  }

  /** An approval dated before its proposal is confirmed and stored, and from then on the
      operation cannot be read: the writer does not check what the reader does. */
  lemma BackdatedApprovalIsStored(host: Host, turns: seq<Turn>, task: Task)
    requires task in Play(host, turns).confirming
    requires var s := Play(host, turns); var w := s.confirming[task];
             && AppendConfirmation(s.store, w.operation, w.event).Ok? && w.event.payload.Confirmed?
             && var events := EventsOf(s.store, w.operation.operationId);
                events != [] && events[0].payload.Proposed?
                && Backdated(events[0].payload.proposal, w.event.payload.approval)
    ensures var id := Play(host, turns).confirming[task].operation.operationId;
            var s := Play(host, turns + [WriteConfirmation(task)]).store;
            |EventsOf(s, id)| == 2 && Get(host, s, id).Err?
  {
    hide Sound, Get, StoreSound, OperationSound, ConfirmedWell, OperationOk, DestinationMatches, Repeats;
    var s := Play(host, turns);
    var w := s.confirming[task];
    var later := turns + [WriteConfirmation(task)];
    assert later[..|later| - 1] == turns;
    ReadyOfSound(host, s, task);
    var t := Play(host, later).store;
    assert t == Appended(s.store, w.operation, w.event);
    PlayIsSound(host, later);
    var id := w.operation.operationId;
    assert t.events[id] == s.store.events[id] + [w.event];
    StoredOperations(host, later, id);
    OnlyProposed(host, turns, id);
  }

  lemma ReadyOfSound(host: Host, s: System, task: Task)
    requires task in s.confirming
    ensures Sound(host, s) ==> ConfirmationReady(host, s.store, s.confirming[task])
  {}

  lemma OnlyProposed(host: Host, turns: seq<Turn>, id: Id)
    requires var s := Play(host, turns).store; id in s.operations && s.operations[id].state == StateProposed
    ensures |EventsOf(Play(host, turns).store, id)| == 1
  {
    hide Get;
    StoredOperations(host, turns, id);
  }

  /** A host that accepts every format; the digests are constants. */
  function EasyHost(): Host {
    Host(_ => true, (_, _, _, _) => true, _ => true, _ => true, _ => true, _ => "d", (_, _, _, _, _, _) => "d",
         (_, _) => Some("d"))
  }

  lemma PlaySnoc(host: Host, turns: seq<Turn>, turn: Turn)
    ensures Play(host, turns + [turn]) == Next(host, Play(host, turns), turn)
  {
    assert (turns + [turn])[..|turns|] == turns;
  }

  const EXAMPLE_BINDING := Binding("p", 1, "d", "d", "k", "d")
  const EXAMPLE_DESTINATION := Destination("x", "f", "l", 0, true)
  const EXAMPLE_PROPOSAL := Proposal("o", EXAMPLE_BINDING, "x", "f", 10, 20, "d")
  const EXAMPLE_PROPOSED := Event("e", "o", 1, 10, "d", Proposed(EXAMPLE_PROPOSAL))
  const EXAMPLE_APPROVAL := Approval("o", "d", 5, 15)
  const EXAMPLE_WRITE := Write(OperationOf(EXAMPLE_PROPOSAL, StateConfirmed, 2),
                               Event("g", "o", 2, 5, "d", Confirmed(EXAMPLE_APPROVAL)))
  const EXAMPLE_STORE := Store(map["o" := OperationOf(EXAMPLE_PROPOSAL, StateProposed, 1)],
                               map["o" := [EXAMPLE_PROPOSED]], map["x" := EXAMPLE_DESTINATION])
  const EXAMPLE_REGISTER := Register(EXAMPLE_DESTINATION)
  const EXAMPLE_CREATE := Create(EXAMPLE_BINDING, EXAMPLE_BINDING, EXAMPLE_DESTINATION, "o", "e", 10, 20, 10)
  const EXAMPLE_READ := ReadToConfirm(0, EXAMPLE_APPROVAL, "g", 10)

  lemma ExampleIsRead()
    ensures Get(EasyHost(), EXAMPLE_STORE, "o")
         == Ok(Some(Snapshot(OperationOf(EXAMPLE_PROPOSAL, StateProposed, 1), EXAMPLE_PROPOSAL, None, None, None,
                             None, None, EXAMPLE_DESTINATION, [EXAMPLE_PROPOSED])))
  {}

  lemma ExampleCreate()
    ensures Next(EasyHost(), Next(EasyHost(), START, EXAMPLE_REGISTER), EXAMPLE_CREATE)
        == START.(store := EXAMPLE_STORE)
  {
    assert Next(EasyHost(), START, EXAMPLE_REGISTER)
        == START.(store := EMPTY.(destinations := map["x" := EXAMPLE_DESTINATION]));
  }

  lemma ExampleRead()
    ensures Next(EasyHost(), START.(store := EXAMPLE_STORE), EXAMPLE_READ)
         == System(EXAMPLE_STORE, map[0 := EXAMPLE_WRITE], map[])
  {
    hide Get;
    ExampleIsRead();
  }

  /** Such an approval exists: proposed at 10, approved at 5, confirmed at 10. */
  lemma BackdatedApprovalExists()
    ensures exists turns: seq<Turn>, id ::
      && id in Play(EasyHost(), turns).store.operations
      && |EventsOf(Play(EasyHost(), turns).store, id)| == 2 && Get(EasyHost(), Play(EasyHost(), turns).store, id).Err?
  {
    hide Play, Next, Get;
    var host := EasyHost();
    var t1 := [] + [EXAMPLE_REGISTER];
    var t2 := t1 + [EXAMPLE_CREATE];
    var t3 := t2 + [EXAMPLE_READ];
    PlayNothing(host);
    PlaySnoc(host, [], EXAMPLE_REGISTER);
    PlaySnoc(host, t1, EXAMPLE_CREATE);
    PlaySnoc(host, t2, EXAMPLE_READ);
    ExampleCreate();
    ExampleRead();
    assert AppendConfirmation(EXAMPLE_STORE, EXAMPLE_WRITE.operation, EXAMPLE_WRITE.event).Ok? by { assert "e" != "g"; }
    BackdatedApprovalIsStored(host, t3, 0);
    StillThere(host, t3, WriteConfirmation(0), "o");
  }

  const OTHER_PROPOSAL := EXAMPLE_PROPOSAL.(destinationFingerprint := "g")
  const OTHER_CREATE := EXAMPLE_CREATE.(destination := EXAMPLE_DESTINATION.(fingerprint := "g"))
  const OTHER_STORE := Store(map["o" := OperationOf(OTHER_PROPOSAL, StateProposed, 1)],
                             map["o" := [EXAMPLE_PROPOSED.(payload := Proposed(OTHER_PROPOSAL))]],
                             map["x" := EXAMPLE_DESTINATION])

  lemma OtherCreate()
    ensures Next(EasyHost(), Next(EasyHost(), START, EXAMPLE_REGISTER), OTHER_CREATE) == START.(store := OTHER_STORE)
    ensures Get(EasyHost(), OTHER_STORE, "o").Err?
  {
    assert Next(EasyHost(), START, EXAMPLE_REGISTER)
        == START.(store := EMPTY.(destinations := map["x" := EXAMPLE_DESTINATION]));
  }

  /** An operation whose proposal names a stored destination by another fingerprint is
      stored, with its first event, and cannot be read. */
  lemma OtherFingerprintExists()
    ensures exists turns: seq<Turn>, id ::
      && id in Play(EasyHost(), turns).store.operations
      && |EventsOf(Play(EasyHost(), turns).store, id)| == 1 && Get(EasyHost(), Play(EasyHost(), turns).store, id).Err?
  {
    hide Play, Next, Get;
    var host := EasyHost();
    var t1 := [] + [EXAMPLE_REGISTER];
    PlayNothing(host);
    PlaySnoc(host, [], EXAMPLE_REGISTER);
    PlaySnoc(host, t1, OTHER_CREATE);
    OtherCreate();
    assert "o" in Play(host, t1 + [OTHER_CREATE]).store.operations;
  }

  lemma PlayNothing(host: Host)
    ensures Play(host, []) == START
  {}

  lemma StillThere(host: Host, turns: seq<Turn>, turn: Turn, id: Id)
    requires id in Play(host, turns).store.operations
    ensures id in Play(host, turns + [turn]).store.operations
  {
    hide Next;
    StoreIsLinked(host, turns);
    StoreOnlyGrows(host, turns, [turn]);
  }
}
