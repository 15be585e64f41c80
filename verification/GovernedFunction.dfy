/** The governed function itself: its methods update the claim, the record and the permit
    in place, and each leaves the state the protocol says. */
module GovernedFunction {
  import opened Wrappers
  import opened PermitProtocol

  class Gate {
    const host: Host
    var claimed: bool
    var records: seq<Invocation>
    var permit: Option<Permit>
    /** The tasks whose context variable holds the permit. */
    var holders: set<Task>
    /** Where the coroutine of the claimed call is suspended. */
    var point: Point
    var handler: Handler
    var entries: seq<Task>

    function Contents(): State
      reads this
    {
      State(claimed, records, permit, holders, point, handler, entries)
    }

    constructor (host: Host)
      ensures Contents() == INITIAL && this.host == host
    {
      this.host := host;
      claimed, records, permit, holders, point, handler, entries := false, [], None, {}, Idle, NotEntered, [];
    }

    /** Append an event to the one record. */
    method AddEvent(phase: Phase)
      requires records != []
      modifies this`records
      ensures records == [Note(host, old(records[0]), phase)]
    {
      var r := records[0];
      records := [r.(events := r.events + [Event(phase, host.clock(|r.events|))])];
    }

    /** Record that the adapter refused, unless the handler was entered. */
    method RefuseAndClose(name: string)
      requires records != []
      modifies this`records
      ensures records == [Refused(host, old(records[0]), name)]
    {
      if records[0].executed.None? {
        records := [records[0].(outcome := NotExecuted, reason := "adapter_refused_" + name)];
      }
      AddEvent(Closed);
    }

    /** `process`, up to the decision it awaits. */
    method Begin(task: Task, view: View, requestId: string) returns (accepted: bool)
      modifies this
      ensures Contents() == Next(host, old(Contents()), Process(task, view, requestId))
      ensures accepted <==> view.genuine && view.callId != "" && !old(claimed) && view.digest.Some?
    {
      if !view.genuine || view.callId == "" || claimed {
        return false;
      }
      claimed := true;
      if view.digest.None? {
        return false;
      }
      records := [Invocation(requestId, view.callId, view.occurrenceId, host.runId, view.digest.value, [], None,
                             None, Unknown, "no_terminal_observation")];
      AddEvent(Request);
      point := Deciding(task, view.context);
      return true;
    }

    /** `process`, from the decision to the rest of the chain it awaits. */
    method Decide(reply: Reply, view: View)
      modifies this
      ensures Contents() == Next(host, old(Contents()), Decided(reply, view))
    {
      if !point.Deciding? || records == [] {
        return;
      }
      if reply.Raised? || !reply.bound {
        RefuseAndClose(if reply.Raised? then reply.name else "MiddlewareFailure");
        point := Over;
        return;
      }
      var action := reply.decision.action;
      records := [records[0].(decision := Some(reply.decision))];
      AddEvent(Decision);
      if !view.genuine || view.digest != Some(records[0].effective) {
        RefuseAndClose("MiddlewareFailure");
        point := Over;
      } else if action.Block? {
        records := [records[0].(outcome := NotExecuted, reason := "agentfuse_policy_block")];
        AddEvent(Blocked);
        AddEvent(Closed);
        point := Over;
      } else if !action.Allow? {
        RefuseAndClose("MiddlewareFailure");
        point := Over;
      } else {
        AddEvent(Release);
        permit, holders := Some(Permit(point.owner, point.context, false)), holders + {point.owner};
        AddEvent(Dispatch);
        point := Dispatched(point.owner, point.context);
      }
    }

    /** `bound_function`, up to the physical handler it awaits. */
    method EnterHandler(task: Task, view: View, sameFunction: bool, value: Option<Digest>) returns (entered: bool)
      modifies this
      ensures Contents() == Next(host, old(Contents()), Enter(task, view, sameFunction, value))
      ensures entered <==> MayEnter(old(Contents()), task, view, sameFunction, value)
    {
      if task !in holders || permit.None? || permit.value.consumed || permit.value.owner != task
         || permit.value.context != view.context || !sameFunction || !view.genuine || records == [] {
        return false;
      }
      if value != Some(records[0].effective) || view.digest != value {
        return false;
      }
      permit := Some(permit.value.(consumed := true));
      records := [records[0].(executed := value)];
      AddEvent(Start);
      handler, entries := Running, entries + [task];
      return true;
    }

    /** `bound_function`, once the physical handler has returned or thrown. */
    method LeaveHandler(ending: Ending)
      modifies this
      ensures Contents() == Next(host, old(Contents()), HandlerEnds(ending))
    {
      if !handler.Running? || records == [] {
        return;
      }
      match ending
      case Returned =>
        records := [records[0].(outcome := Success, reason := "")];
        AddEvent(Completion);
        handler := Ended;
      case Threw(name, cancelled) =>
        records := [records[0].(outcome := if cancelled then Cancelled else Failure,
                                reason := "physical_handler_" + name)];
        AddEvent(Completion);
        handler := Ended;
    }

    /** `process`, once the rest of the chain is over. */
    method Finish(failure: Option<string>)
      modifies this
      ensures Contents() == Next(host, old(Contents()), DispatchEnds(failure))
    {
      if !point.Dispatched? || handler.Running? || records == [] || permit.None? {
        return;
      }
      holders := holders - {point.owner};
      if failure.Some? {
        RefuseAndClose(failure.value);
      } else if !permit.value.consumed {
        RefuseAndClose("MiddlewareFailure");
      } else {
        AddEvent(Closed);
      }
      point := Over;
    }
  }
}
