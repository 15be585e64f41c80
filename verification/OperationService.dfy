/** The store's adapter, which updates its maps in place, and the store's operations on it. */
module OperationService {
  import opened Wrappers
  import opened OperationStore
  import opened OperationRuns

  class InMemoryAdapter {
    var operations: map<Id, Operation>
    var events: map<Id, seq<Event>>
    var destinations: map<Id, Destination>

    function Contents(): Store
      reads this
    {
      Store(operations, events, destinations)
    }

    constructor ()
      ensures Contents() == EMPTY
    {
      operations, events, destinations := map[], map[], map[];
    }

    method RegisterDestinationBinding(d: Destination) returns (error: Option<StoreError>)
      modifies this`destinations
      ensures match RegisterDestination(old(Contents()), d)
              case Ok(s) => error == None && Contents() == s
              case Err(e) => error == Some(e) && Contents() == old(Contents())
    {
      if d.id in destinations {
        return if destinations[d.id] != d then Some(DestinationUnavailable) else None;
      }
      destinations := destinations[d.id := d];
      return None;
    }

    method Create(op: Operation, e: Event) returns (error: Option<StoreError>)
      modifies this
      ensures match CreateOperation(old(Contents()), op, e)
              case Ok(s) => error == None && Contents() == s
              case Err(x) => error == Some(x) && Contents() == old(Contents())
    {
      if op.operationId in operations {
        return Some(PersistenceFailed);
      }
      if op.destinationId !in destinations {
        return Some(DestinationUnavailable);
      }
      operations := operations[op.operationId := op];
      events := events[op.operationId := [e]];
      return None;
    }

    /** Whether an event list already holds the id or the number of an event. */
    method HasEvent(list: seq<Event>, e: Event) returns (found: bool)
      ensures found == Repeats(list, e)
    {
      for i := 0 to |list|
        invariant !Repeats(list[..i], e)
      {
        if list[i].id == e.id || list[i].sequence == e.sequence {
          return true;
        }
      }
      assert list[..|list|] == list;
      return false;
    }

    method AddConfirmation(op: Operation, e: Event) returns (error: Option<StoreError>)
      modifies this
      ensures match AppendConfirmation(old(Contents()), op, e)
              case Ok(s) => error == None && Contents() == s
              case Err(x) => error == Some(x) && Contents() == old(Contents())
    {
      if op.operationId !in operations || op.operationId !in events {
        return Some(PersistenceFailed);
      }
      var current, list := operations[op.operationId], events[op.operationId];
      if current.state != StateProposed || current.lastSequence + 1 != e.sequence {
        return Some(PersistenceFailed);
      }
      var repeated := HasEvent(list, e);
      if repeated {
        return Some(PersistenceFailed);
      }
      events := events[op.operationId := list + [e]];
      operations := operations[op.operationId := op];
      return None;
    }

    method AddDecision(op: Operation, e: Event) returns (error: Option<StoreError>)
      modifies this
      ensures match AppendDecision(old(Contents()), op, e)
              case Ok(s) => error == None && Contents() == s
              case Err(x) => error == Some(x) && Contents() == old(Contents())
    {
      if op.operationId !in operations || op.operationId !in events {
        return Some(PersistenceFailed);
      }
      var current, list := operations[op.operationId], events[op.operationId];
      var repeated := HasEvent(list, e);
      if current.state != StateConfirmed || current.lastSequence != 2 || op.lastSequence != 3 || e.sequence != 3
         || repeated
      {
        return Some(PersistenceFailed);
      }
      events := events[op.operationId := list + [e]];
      operations := operations[op.operationId := op];
      return None;
    }
  }

  /** What a write that persisted answers: the operation, read back. */
  function Required(read: Result<Option<Snapshot>, StoreError>): Result<Snapshot, StoreError> {
    match read
    case Err(error) => Err(error)
    case Ok(None) => Err(StoreUnavailable)
    case Ok(Some(snapshot)) => Ok(snapshot)
  }

  /** A store with nothing prepared. */
  function Alone(s: Store): System { System(s, map[], map[]) }

  class CodingPackStore {
    const adapter: InMemoryAdapter
    const host: Host

    constructor (adapter: InMemoryAdapter, host: Host)
      ensures this.adapter == adapter && this.host == host
    {
      this.adapter, this.host := adapter, host;
    }

    /** Confirm a proposal when no other task comes between: the read turn, then the write
        turn. An answer other than an error is the operation with its confirmation. */
    method ConfirmExportProposal(approval: Approval, eventId: Id, now: Time)
      returns (result: Result<Snapshot, StoreError>)
      modifies adapter
      ensures adapter.Contents()
           == Next(host, Next(host, Alone(old(adapter.Contents())), ReadToConfirm(0, approval, eventId, now)),
                   WriteConfirmation(0)).store
      ensures result.Ok? ==> Get(host, adapter.Contents(), approval.operationId) == Ok(Some(result.value))
      ensures result.Ok? ==> adapter.Contents() != old(adapter.Contents())
    {
      hide PrepareConfirmation, ApprovalOk;
      if !ApprovalOk(host, approval) {
        return Err(ApprovalMismatch);
      }
      var read := Get(host, adapter.Contents(), approval.operationId);
      match read
      case Err(error) => return Err(error);
      case Ok(None) => return Err(ApprovalMismatch);
      case Ok(Some(snapshot)) =>
        var prepared := PrepareConfirmation(host, snapshot, approval, eventId, now);
        if prepared.Err? {
          return Err(prepared.error);
        }
        PreparedSameOperation(host, adapter.Contents(), snapshot, approval, eventId, now);
        var error := adapter.AddConfirmation(prepared.value.operation, prepared.value.event);
        if error.Some? {
          return Err(PersistenceFailed);
        }
        result := Required(Get(host, adapter.Contents(), approval.operationId));
        LongerIsOther(old(adapter.Contents()), adapter.Contents(), prepared.value);
    }

    /** Record a decision, likewise. */
    method RecordExportDecision(operationId: Id, decision: Decision, eventId: Id, now: Time)
      returns (result: Result<Snapshot, StoreError>)
      modifies adapter
      ensures adapter.Contents()
           == Next(host, Next(host, Alone(old(adapter.Contents())),
                              ReadToDecide(0, operationId, decision, eventId, now)), WriteDecision(0)).store
      ensures result.Ok? ==> Get(host, adapter.Contents(), operationId) == Ok(Some(result.value))
    {
      hide PrepareDecision;
      if !host.formed(Decided(decision)) {
        return Err(InvalidEvidence);
      }
      var read := Get(host, adapter.Contents(), operationId);
      match read
      case Err(error) => return Err(error);
      case Ok(None) => return Err(ApprovalMismatch);
      case Ok(Some(snapshot)) =>
        var prepared := PrepareDecision(host, snapshot, decision, eventId, now);
        if prepared.Err? {
          return Err(prepared.error);
        }
        var error := adapter.AddDecision(prepared.value.operation, prepared.value.event);
        if error.Some? {
          return Err(PersistenceFailed);
        }
        result := Required(Get(host, adapter.Contents(), operationId));
    }
  }

  lemma PreparedSameOperation(host: Host, s: Store, snapshot: Snapshot, a: Approval, eventId: Id, now: Time)
    requires Get(host, s, a.operationId) == Ok(Some(snapshot))
    requires PrepareConfirmation(host, snapshot, a, eventId, now).Ok?
    ensures PrepareConfirmation(host, snapshot, a, eventId, now).value.operation.operationId
        == snapshot.operation.operationId
  {}

  lemma LongerIsOther(s: Store, t: Store, w: Write)
    requires AppendConfirmation(s, w.operation, w.event) == Ok(t)
    ensures s != t
  {
    assert |t.events[w.operation.operationId]| > |s.events[w.operation.operationId]|;
  }
}
