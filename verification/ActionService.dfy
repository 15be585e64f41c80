/** The action runtime as an object: each method is one uninterrupted stretch of the
    asynchronous code, updating the runtime's maps and sets in place. */
module ActionService {
  import opened Wrappers
  import opened Texts
  import opened ActionRuntime

  class ActionRuntimeService {
    var records: map<string, Record>
    var terminalOutcomes: map<string, Outcome>
    var decisionIds: set<string>
    var executionReceipts: set<string>
    /** The approve calls waiting for their hook. */
    var approving: map<nat, Approval>
    ghost var trace: seq<Event>
    ghost var issued: set<string>

    constructor ()
      ensures View() == NEW_RUNTIME
    {
      records := map[];
      terminalOutcomes := map[];
      decisionIds := {};
      executionReceipts := {};
      approving := map[];
      trace := [];
      issued := {};
    }

    ghost function View(): Runtime
      reads this
    {
      Runtime(records, terminalOutcomes, decisionIds, executionReceipts, approving, trace, issued)
    }

    method Propose(p: Proposal, valid: bool)
      modifies this
      ensures View() == Next(old(View()), Turn.Propose(p, valid))
    {
      if valid && !Blank(p.actionId) && p.actionId !in records {
        records := records[p.actionId := NewRecord(p)];
      }
    }

    method BeginApprove(call: nat, a: Approval, now: int)
      modifies this
      ensures View() == Next(old(View()), Turn.BeginApprove(call, a, now))
    {
      if call in approving || a.actionId !in records {
        return;
      }
      var r := records[a.actionId];
      if r.state.AwaitingApproval? && ValidApproval(a, r.proposal, now) {
        approving := approving[call := a];
      }
    }

    method EndApprove(call: nat, ok: bool)
      modifies this
      ensures View() == Next(old(View()), Turn.EndApprove(call, ok))
    {
      if call !in approving {
        return;
      }
      var a := approving[call];
      approving := approving - {call};
      if ok && a.actionId in records {
        trace := trace + [ApprovalHook(a.actionId, a)];
        var r := records[a.actionId].(approval := Some(a));
        if Approved in Successors(r.state) {
          r := r.(state := Approved, history := r.history + [Approved]);
        }
        records := records[a.actionId := r];
      }
    }

    /** The execution ends in a state, or is rejected when the transition is refused. */
    method Finish(r: Record, next: ActionState) returns (ended: Record)
      ensures ended == EndIn(r, next)
    {
      if next in Successors(r.state) {
        ended := r.(state := next, history := r.history + [next], point := Resolved);
      } else {
        ended := r.(point := Rejected);
      }
    }

    method FailClosedDecision(id: string, r: Record, reason: string, formed: bool)
      requires id in records
      modifies `records, `decisionIds
      ensures var c := FailClosed(old(View()), r, reason, formed);
        && records == old(records)[id := c.record] && c.events == []
        && decisionIds == if c.decisionId.Some? then old(decisionIds) + {c.decisionId.value} else old(decisionIds)
    {
      var d := LocalDecision(r.proposal, reason, formed);
      if !ValidDecision(d, r.proposal) || d.decisionId in decisionIds {
        records := records[id := r.(point := Rejected)];
        return;
      }
      decisionIds := decisionIds + {d.decisionId};
      records := records[id := r.(decision := Some(d), point := FailingClosed)];
    }

    method Execute(id: string, now: int, registered: bool, formed: bool)
      modifies this
      ensures View() == Next(old(View()), OnAction(id, Op.Execute(now, registered, formed)))
    {
      if id !in records {
        return;
      }
      var r := records[id];
      if !r.point.NotExecuted? {
        records := records[id := r];
        return;
      }
      if !r.state.Approved? || r.approval.None? || !ValidApproval(r.approval.value, r.proposal, now) {
        records := records[id := r.(point := Rejected)];
        return;
      }
      if r.aborted {
        r := Finish(r, Cancelled);
        records := records[id := r];
        return;
      }
      r := r.(state := Evaluating, history := r.history + [Evaluating]);
      if registered {
        records := records[id := r.(point := BeforeRequest(r.approval.value))];
      } else {
        FailClosedDecision(id, r, "unknown_action", formed);
      }
    }

    method AfterRequestHook(id: string, ok: bool)
      modifies this
      ensures View() == Next(old(View()), OnAction(id, RequestHook(ok)))
    {
      if id in records {
        var r := records[id];
        if r.point.BeforeRequest? {
          r := r.(point := if ok then Deciding(r.point.approval) else Rejected);
        }
        records := records[id := r];
      }
    }

    method AfterDecide(id: string, answer: Option<Decision>, formed: bool)
      modifies this
      ensures View() == Next(old(View()), OnAction(id, Decided(answer, formed)))
    {
      if id !in records {
        return;
      }
      var r := records[id];
      if !r.point.Deciding? {
        records := records[id := r];
        return;
      }
      var d := if answer.Some? then answer.value else LocalDecision(r.proposal, "decision_provider_failed", formed);
      if !ValidDecision(d, r.proposal) {
        var mismatch := d.actionId != r.proposal.actionId && !Blank(d.actionId) && !Blank(d.decisionId);
        FailClosedDecision(id, r, if mismatch then "decision_mismatch" else "invalid_decision", formed);
        return;
      }
      if d.decisionId in decisionIds {
        FailClosedDecision(id, r, "duplicate_decision", formed);
        return;
      }
      decisionIds := decisionIds + {d.decisionId};
      trace := trace + [Accepted(r.proposal.actionId, d)];
      records := records[id := r.(decision := Some(d), point := Persisting(r.point.approval, d))];
    }

    method AfterFailClosedHook(id: string, ok: bool)
      modifies this
      ensures View() == Next(old(View()), OnAction(id, FailClosedHook(ok)))
    {
      if id in records {
        var r := records[id];
        if r.point.FailingClosed? {
          if !ok {
            r := r.(decision := Some(LocalDecision(r.proposal, "decision_persistence_failed", true)));
          }
          r := Finish(r, DecisionError);
        }
        records := records[id := r];
      }
    }

    method AfterDecisionHook(id: string, ok: bool, now: int, startedAt: int, later: int, receipt: string)
      modifies this
      ensures View() == Next(old(View()), OnAction(id, DecisionHook(ok, now, startedAt, later, receipt)))
    {
      if id !in records {
        return;
      }
      var r := records[id];
      issued := issued + {receipt};
      if !r.point.Persisting? {
        records := records[id := r];
        return;
      }
      var a, d := r.point.approval, r.point.decision;
      if !ok {
        r := Finish(r.(decision := Some(LocalDecision(r.proposal, "decision_persistence_failed", true))),
                    DecisionError);
        records := records[id := r];
        return;
      }
      trace := trace + [DecisionKept(r.proposal.actionId, d)];
      if r.aborted || !d.verdict.Allow? {
        r := Finish(r, if r.aborted then Cancelled else if d.verdict.Deny? then Denied
                       else if d.verdict.Hold? then Held else DecisionError);
        records := records[id := r];
        return;
      }
      if !ValidApproval(a, r.proposal, now) || Allowed !in Successors(r.state) {
        records := records[id := r.(point := Rejected)];
        return;
      }
      r := r.(state := Allowed, history := r.history + [Allowed]);
      r := r.(state := Starting, history := r.history + [Starting]);
      var s := Started(r.proposal.actionId, a.approvalId, d.decisionId, receipt, startedAt);
      if !ValidStarted(s, r.proposal, a, d, later) || r.started.Some? || s.receipt in executionReceipts {
        r := r.(point := Rejected);
      } else {
        r := r.(point := Dispatching(a, d, s));
      }
      records := records[id := r];
    }

    method AfterDispatchHook(id: string, ok: bool, now: int)
      modifies this
      ensures View() == Next(old(View()), OnAction(id, DispatchHook(ok, now)))
    {
      if id !in records {
        return;
      }
      var r := records[id];
      if !r.point.Dispatching? {
        records := records[id := r];
        return;
      }
      if !ok {
        records := records[id := r.(point := Rejected)];
        return;
      }
      var a, d, s := r.point.approval, r.point.decision, r.point.started;
      trace := trace + [Dispatched(r.proposal.actionId, s)];
      if !ValidApproval(a, r.proposal, now) {
        r := r.(point := Rejected);
      } else if r.aborted {
        r := Finish(r, Cancelled);
      } else {
        executionReceipts := executionReceipts + {s.receipt};
        r := r.(started := Some(s));
        if Running in Successors(r.state) {
          r := r.(state := Running, history := r.history + [Running], point := Handling(a, d, s));
          trace := trace + [Entered(r.proposal.actionId, a, d, s, now)];
        } else {
          r := r.(point := Rejected);
        }
      }
      records := records[id := r];
    }

    method InterruptAfterSettlementFailure(id: string, r: Record, s: Started)
      requires id in records
      modifies `records, `terminalOutcomes, `trace
      ensures var c := Interrupt(old(View()), r, s);
        && records == old(records)[id := c.record] && trace == old(trace) + c.events
        && c.decisionId.None? && c.receipt.None?
        && terminalOutcomes == if c.outcome.Some? then old(terminalOutcomes)[c.outcome.value.receipt := c.outcome.value]
                               else old(terminalOutcomes)
    {
      trace := trace + [SettlementFailed(r.proposal.actionId, s.receipt)];
      if s.receipt in terminalOutcomes {
        records := records[id := r.(point := Rejected)];
        return;
      }
      var o := Outcome(r.proposal.actionId, s.receipt, UnknownOrInterrupted);
      terminalOutcomes := terminalOutcomes[s.receipt := o];
      var ended := Finish(r.(outcome := Some(o)), Interrupted);
      records := records[id := ended];
    }

    method AfterHandler(id: string, result: HandlerResult)
      modifies this
      ensures View() == Next(old(View()), OnAction(id, HandlerDone(result)))
    {
      if id !in records {
        return;
      }
      var r := records[id];
      if !r.point.Handling? {
        records := records[id := r];
        return;
      }
      var s := r.point.started;
      if result.Returned? && !result.fits {
        InterruptAfterSettlementFailure(id, r, s);
        return;
      }
      var status := if result.Returned? then DidComplete
                    else if r.aborted || result.abortError then DidCancel else DidFail;
      records := records[id := r.(point := Settling(s, Outcome(r.proposal.actionId, s.receipt, status)))];
    }

    method AfterSettlementHook(id: string, ok: bool)
      modifies this
      ensures View() == Next(old(View()), OnAction(id, SettlementHook(ok)))
    {
      if id !in records {
        return;
      }
      var r := records[id];
      if !r.point.Settling? {
        records := records[id := r];
        return;
      }
      var s, o := r.point.started, r.point.outcome;
      if !ok {
        InterruptAfterSettlementFailure(id, r, s);
        return;
      }
      if o.receipt in terminalOutcomes {
        records := records[id := r.(point := Rejected)];
        return;
      }
      terminalOutcomes := terminalOutcomes[o.receipt := o];
      r := Finish(r.(outcome := Some(o)), SettledState(o.status));
      records := records[id := r];
    }

    method Cancel(id: string)
      modifies this
      ensures View() == Next(old(View()), OnAction(id, Op.Cancel))
    {
      if id in records {
        var r := records[id].(aborted := true);
        if Cancellable(r.state) {
          r := r.(state := Cancelled, history := r.history + [Cancelled]);
        }
        records := records[id := r];
      }
    }
  }
}
