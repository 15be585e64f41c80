/** Leaving Running records exactly one outcome for the action's receipt, given that
    the receipts issued to executions are distinct. */
module ActionOutcomes {
  import opened Wrappers
  import Texts
  import opened ActionRuntime
  import opened ActionAuthority
  import opened ActionSettlement

  // ---------- what a record keeps ----------

  /** The state an execution can be in when it is suspended at its point. */
  ghost predicate PointFitsState(r: Record) {
    var stopped := r.state.Cancelled? && r.aborted;
    match r.point
    case NotExecuted => r.state.AwaitingApproval? || r.state.Approved? || stopped
    case BeforeRequest(_) => r.state.Evaluating? || stopped
    case Deciding(_) => r.state.Evaluating? || stopped
    case FailingClosed => r.state.Evaluating? || stopped
    case Persisting(_, _) => r.state.Evaluating? || stopped
    case Dispatching(_, _, _) => r.state.Starting? || stopped
    case Handling(_, _, s) => r.state.Running? && r.started == Some(s)
    case Settling(s, o) =>
      && r.state.Running? && r.started == Some(s)
      && o.receipt == s.receipt && o.actionId == r.proposal.actionId && !o.status.UnknownOrInterrupted?
    case Rejected => !r.state.Running?
    case Resolved => TerminalState(r.state)
  }

  ghost predicate Lifecycle(r: Record) {
    && PointFitsState(r)
    && (r.aborted ==> !Cancellable(r.state))
    && (BeforeHandler(r.point) ==> r.started.None?)
    && (r.started.None? ==> !r.state.Running? && !r.state.Completed? && !r.state.Failed? && !r.state.Interrupted?)
  }

  /** A started action is running without an outcome, or has ended in the state its one
      recorded outcome names. */
  ghost predicate Recorded(r: Record, outcomes: map<string, Outcome>) {
    match r.started
    case None => r.point.Dispatching? ==> r.point.started.receipt !in outcomes
    case Some(s) =>
      if r.state.Running? then s.receipt !in outcomes
      else
        && s.receipt in outcomes && r.outcome == Some(outcomes[s.receipt])
        && outcomes[s.receipt].actionId == r.proposal.actionId
        && SettledState(outcomes[s.receipt].status) == r.state
  }

  /** The action is interrupted exactly when its settlement failed. */
  ghost predicate FailureNoted(id: string, r: Record, trace: seq<Event>) {
    && (r.state.Interrupted? <==> exists e <- trace :: e.SettlementFailed? && e.actionId == id)
    && (forall e <- trace :: e.SettlementFailed? && e.actionId == id ==>
          r.started.Some? && e.receipt == r.started.value.receipt)
  }

  /** The receipt an execution holds, from its dispatch on. */
  function HeldReceipt(r: Record): Option<string> {
    if r.started.Some? then Some(r.started.value.receipt)
    else if r.point.Dispatching? then Some(r.point.started.receipt)
    else None
  }

  ghost predicate Kept(id: string, r: Record, outcomes: map<string, Outcome>, trace: seq<Event>) {
    r.proposal.actionId == id && Lifecycle(r) && Recorded(r, outcomes) && FailureNoted(id, r, trace)
  }

  ghost predicate Settled(rt: Runtime) {
    && (forall id <- rt.records :: Kept(id, rt.records[id], rt.outcomes, rt.trace))
    && (forall id <- rt.records :: HeldReceipt(rt.records[id]).Some? ==>
          HeldReceipt(rt.records[id]).value in rt.issued)
    && (forall id, other :: id in rt.records && other in rt.records && id != other
                            && HeldReceipt(rt.records[id]).Some?
                            ==> HeldReceipt(rt.records[other]) != HeldReceipt(rt.records[id]))
    && rt.outcomes.Keys <= rt.issued
    && (forall e <- rt.trace :: e.actionId in rt.records)
    && (forall call <- rt.approving :: rt.approving[call].actionId in rt.records)
  }

  // ---------- one operation ----------

  /** What an operation does to the outcomes, the trace and the receipt it holds. */
  ghost predicate SettlesOnce(id: string, r: Record, op: Op, c: Change, outcomes: map<string, Outcome>,
                              trace: seq<Event>)
  {
    && (c.outcome.Some? ==>
          r.started.Some? && c.outcome.value.receipt == r.started.value.receipt
          && c.outcome.value.receipt !in outcomes)
    && Kept(id, c.record,
            if c.outcome.Some? then outcomes[c.outcome.value.receipt := c.outcome.value] else outcomes,
            trace + c.events)
    && (HeldReceipt(c.record).Some? ==>
          HeldReceipt(c.record) == HeldReceipt(r) || (op.DecisionHook? && HeldReceipt(c.record).value == op.receipt))
    && forall e <- c.events :: e.actionId == id
  }

  lemma FailureKept(id: string, r: Record, next: Record, trace: seq<Event>, events: seq<Event>)
    requires FailureNoted(id, r, trace) && forall e <- events :: !e.SettlementFailed?
    requires r.started.Some? ==> next.started == r.started
    requires next.state.Interrupted? <==> r.state.Interrupted?
    ensures FailureNoted(id, next, trace + events)
  {
    if exists e <- trace :: e.SettlementFailed? && e.actionId == id {
      var e :| e in trace && e.SettlementFailed? && e.actionId == id;
      assert e in trace + events;
    }
  }

  lemma InterruptSettles(rt: Runtime, id: string, r: Record, s: Started, op: Op)
    requires Kept(id, r, rt.outcomes, rt.trace) && r.state.Running? && r.started == Some(s)
    ensures SettlesOnce(id, r, op, Interrupt(rt, r, s), rt.outcomes, rt.trace)
    ensures Interrupt(rt, r, s).events != []
  {
    var c := Interrupt(rt, r, s);
    assert c.events[0] in rt.trace + c.events;
  }

  lemma SettlementSettles(rt: Runtime, id: string, r: Record, op: Op)
    requires Kept(id, r, rt.outcomes, rt.trace)
    requires (r.point.Handling? && op.HandlerDone?) || (r.point.Settling? && op.SettlementHook?)
    ensures SettlesOnce(id, r, op, OnOp(rt, r, op), rt.outcomes, rt.trace)
  {
    hide Interrupt, FailureNoted;
    InterruptSettles(rt, id, r, r.started.value, op);
    var c := OnOp(rt, r, op);
    if c.events == [] { FailureKept(id, r, c.record, rt.trace, c.events); }
  }

  /** A decision, kept or not, starts nothing and records no outcome. */
  ghost predicate StartsNothing(r: Record, c: Change, receipt: string) {
    && c.outcome.None? && c.record.started.None? && c.record.proposal == r.proposal && Lifecycle(c.record)
    && !c.record.state.Interrupted? && (c.record.point.Dispatching? ==> c.record.point.started.receipt == receipt)
    && forall e <- c.events :: e.DecisionKept? && e.actionId == r.proposal.actionId
  }

  lemma DecisionStartsNothing(rt: Runtime, r: Record, op: Op)
    requires Lifecycle(r) && r.point.Persisting? && op.DecisionHook?
    ensures StartsNothing(r, OnDecisionHook(rt, r, op), op.receipt)
  {
    hide ValidApproval, ValidStarted, LocalDecision;
  }

  lemma DecisionSettles(rt: Runtime, id: string, r: Record, op: Op)
    requires Kept(id, r, rt.outcomes, rt.trace) && r.point.Persisting? && op.DecisionHook?
    requires op.receipt !in rt.outcomes
    ensures SettlesOnce(id, r, op, OnDecisionHook(rt, r, op), rt.outcomes, rt.trace)
  {
    hide OnDecisionHook, FailureNoted;
    var c := OnDecisionHook(rt, r, op);
    DecisionStartsNothing(rt, r, op);
    FailureKept(id, r, c.record, rt.trace, c.events);
  }

  lemma DispatchSettles(rt: Runtime, id: string, r: Record, op: Op)
    requires Kept(id, r, rt.outcomes, rt.trace) && r.point.Dispatching? && op.DispatchHook?
    ensures SettlesOnce(id, r, op, OnDispatchHook(r, op.ok, op.now), rt.outcomes, rt.trace)
  {
    hide ValidApproval, FailureNoted;
    var c := OnDispatchHook(r, op.ok, op.now);
    FailureKept(id, r, c.record, rt.trace, c.events);
  }

  lemma ExecuteSettles(rt: Runtime, id: string, r: Record, op: Op)
    requires Kept(id, r, rt.outcomes, rt.trace) && op.Execute?
    ensures SettlesOnce(id, r, op, OnExecute(rt, r, op.now, op.registered, op.formed), rt.outcomes, rt.trace)
  {
    hide ValidApproval, ValidDecision, LocalDecision, FailureNoted;
    var c := OnExecute(rt, r, op.now, op.registered, op.formed);
    FailureKept(id, r, c.record, rt.trace, c.events);
  }

  lemma DecidedSettles(rt: Runtime, id: string, r: Record, op: Op)
    requires Kept(id, r, rt.outcomes, rt.trace) && r.point.Deciding? && op.Decided?
    ensures SettlesOnce(id, r, op, OnDecided(rt, r, op.answer, op.formed), rt.outcomes, rt.trace)
  {
    hide ValidDecision, LocalDecision, FailureNoted, Texts.Blank;
    var c := OnDecided(rt, r, op.answer, op.formed);
    FailureKept(id, r, c.record, rt.trace, c.events);
  }

  lemma OpSettles(rt: Runtime, id: string, r: Record, op: Op)
    requires Kept(id, r, rt.outcomes, rt.trace)
    requires op.DecisionHook? ==> op.receipt !in rt.outcomes
    ensures SettlesOnce(id, r, op, OnOp(rt, r, op), rt.outcomes, rt.trace)
  {
    hide OnExecute, OnDecided, OnDecisionHook, OnDispatchHook, OnHandlerDone, OnSettlementHook, LocalDecision,
         FailureNoted;
    var c := OnOp(rt, r, op);
    if op.Execute? {
      ExecuteSettles(rt, id, r, op);
    } else if op.Decided? && r.point.Deciding? {
      DecidedSettles(rt, id, r, op);
    } else if op.DecisionHook? && r.point.Persisting? {
      DecisionSettles(rt, id, r, op);
    } else if op.DispatchHook? && r.point.Dispatching? {
      DispatchSettles(rt, id, r, op);
    } else if (r.point.Handling? && op.HandlerDone?) || (r.point.Settling? && op.SettlementHook?) {
      SettlementSettles(rt, id, r, op);
    } else {
      FailureKept(id, r, c.record, rt.trace, c.events);
    }
  }

  // ---------- whole runs ----------

  lemma OtherKept(id: string, r: Record, outcomes: map<string, Outcome>, trace: seq<Event>, o: Option<Outcome>,
                  events: seq<Event>)
    requires Kept(id, r, outcomes, trace) && forall e <- events :: e.actionId != id
    requires o.Some? ==> HeldReceipt(r) != Some(o.value.receipt)
    ensures Kept(id, r, if o.Some? then outcomes[o.value.receipt := o.value] else outcomes, trace + events)
  {
    if exists e <- trace :: e.SettlementFailed? && e.actionId == id {
      var e :| e in trace && e.SettlementFailed? && e.actionId == id;
      assert e in trace + events;
    }
  }

  /** The receipt a turn takes, when it takes one, was not issued before. */
  ghost predicate TakesNewReceipt(rt: Runtime, turn: Turn) {
    turn.OnAction? && turn.op.DecisionHook? ==> turn.op.receipt !in rt.issued
  }

  lemma ActionTurnSettles(rt: Runtime, id: string, op: Op)
    requires Settled(rt) && id in rt.records && TakesNewReceipt(rt, OnAction(id, op))
    ensures Settled(Changed(rt, id, op, OnOp(rt, rt.records[id], op)))
  {
    hide OnOp, Kept, HeldReceipt;
    var r := rt.records[id];
    var c := OnOp(rt, r, op);
    OpSettles(rt, id, r, op);
    if c.outcome.Some? { StartedIsHeld(r); }
    forall other | other in rt.records && other != id
      ensures Kept(other, rt.records[other], Changed(rt, id, op, c).outcomes, rt.trace + c.events)
    {
      OtherKept(other, rt.records[other], rt.outcomes, rt.trace, c.outcome, c.events);
    }
  }

  lemma StartedIsHeld(r: Record)
    ensures r.started.Some? ==> HeldReceipt(r) == Some(r.started.value.receipt)
  {}

  /** A record that starts or is approved keeps what it must. */
  lemma ApprovalKeeps(id: string, r: Record, a: Approval, outcomes: map<string, Outcome>, trace: seq<Event>)
    requires Kept(id, r, outcomes, trace)
    ensures Kept(id, WithApproval(r, a), outcomes, trace + [ApprovalHook(a.actionId, a)])
    ensures HeldReceipt(WithApproval(r, a)) == HeldReceipt(r)
  {
    hide FailureNoted;
    FailureKept(id, r, WithApproval(r, a), trace, [ApprovalHook(a.actionId, a)]);
  }

  lemma ApprovalTurnSettles(rt: Runtime, call: nat, ok: bool)
    requires Settled(rt)
    ensures Settled(Next(rt, EndApprove(call, ok)))
  {
    hide Kept, HeldReceipt, WithApproval;
    if call in rt.approving && ok {
      var a := rt.approving[call];
      ApprovalKeeps(a.actionId, rt.records[a.actionId], a, rt.outcomes, rt.trace);
      forall id | id in rt.records && id != a.actionId
        ensures Kept(id, rt.records[id], rt.outcomes, rt.trace + [ApprovalHook(a.actionId, a)])
      {
        OtherKept(id, rt.records[id], rt.outcomes, rt.trace, None, [ApprovalHook(a.actionId, a)]);
      }
    }
  }

  lemma NewKept(p: Proposal, outcomes: map<string, Outcome>, trace: seq<Event>)
    requires forall e <- trace :: e.actionId != p.actionId
    ensures Kept(p.actionId, NewRecord(p), outcomes, trace) && HeldReceipt(NewRecord(p)).None?
  {}

  lemma NextSettles(rt: Runtime, turn: Turn)
    requires Settled(rt) && TakesNewReceipt(rt, turn)
    ensures Settled(Next(rt, turn))
  {
    hide OnOp, Kept, HeldReceipt, ValidApproval, Settled;
    match turn {
      case Propose(p, valid) =>
        hide NewRecord;
        if Next(rt, turn) != rt { ProposalTurnSettles(rt, p, valid); }
      case BeginApprove(call, a, now) => assert Settled(Next(rt, turn)) by { BeginTurnSettles(rt, call, a, now); }
      case EndApprove(call, ok) => ApprovalTurnSettles(rt, call, ok);
      case OnAction(id, op) => if id in rt.records { ActionTurnSettles(rt, id, op); }
    }
  }

  lemma ProposalTurnSettles(rt: Runtime, p: Proposal, valid: bool)
    requires Settled(rt)
    ensures Settled(Next(rt, Propose(p, valid)))
  {
    hide Kept, HeldReceipt, NewRecord;
    if p.actionId !in rt.records { NewKept(p, rt.outcomes, rt.trace); }
  }

  lemma BeginTurnSettles(rt: Runtime, call: nat, a: Approval, now: int)
    requires Settled(rt)
    ensures Settled(Next(rt, BeginApprove(call, a, now)))
  {
    hide Kept, HeldReceipt, ValidApproval;
  }

  /** No two executions are given the same receipt. */
  ghost predicate DistinctReceipts(turns: seq<Turn>) {
    forall i, j :: 0 <= i < j < |turns| && turns[i].OnAction? && turns[i].op.DecisionHook?
                   && turns[j].OnAction? && turns[j].op.DecisionHook?
                   ==> turns[i].op.receipt != turns[j].op.receipt
  }

  lemma {:induction false} IssuedByTurns(turns: seq<Turn>)
    ensures forall receipt <- Play(turns).issued ::
              exists i :: 0 <= i < |turns| && turns[i].OnAction? && turns[i].op.DecisionHook?
                          && turns[i].op.receipt == receipt
  {
    hide OnOp, ValidApproval;
    if turns != [] {
      var before := turns[..|turns| - 1];
      IssuedByTurns(before);
      forall receipt | receipt in Play(turns).issued
        ensures exists i :: 0 <= i < |turns| && turns[i].OnAction? && turns[i].op.DecisionHook?
                            && turns[i].op.receipt == receipt
      {
        if receipt in Play(before).issued {
          var i :| 0 <= i < |before| && before[i].OnAction? && before[i].op.DecisionHook?
                   && before[i].op.receipt == receipt;
          assert turns[i] == before[i];
        }
      }
    }
  }

  lemma {:induction false} PlaySettles(turns: seq<Turn>)
    requires DistinctReceipts(turns)
    ensures Settled(Play(turns))
  {
    hide Next, Settled;
    if turns == [] {
      assert Settled(NEW_RUNTIME) by { NewSettles(); }
    } else {
      var before := turns[..|turns| - 1];
      PlaySettles(before);
      IssuedByTurns(before);
      NextSettles(Play(before), turns[|turns| - 1]);
    }
  }

  lemma NewSettles()
    ensures Settled(NEW_RUNTIME)
  {}

  /** With distinct receipts, in every interleaving: a started action is running, with
      its execution still under way and no outcome; or it has left Running for the state
      its one recorded outcome names, which is Interrupted exactly when the settlement
      could not be validated or stored. */
  lemma LeavingRunningRecordsOutcome(turns: seq<Turn>, id: string)
    requires DistinctReceipts(turns) && id in Play(turns).records && Play(turns).records[id].started.Some?
    ensures var rt := Play(turns);
      var r := rt.records[id];
      var receipt := r.started.value.receipt;
      && (r.state.Running? ==> (r.point.Handling? || r.point.Settling?) && receipt !in rt.outcomes)
      && (!r.state.Running? ==>
            && TerminalState(r.state) && receipt in rt.outcomes && r.outcome == Some(rt.outcomes[receipt])
            && rt.outcomes[receipt].actionId == id && SettledState(rt.outcomes[receipt].status) == r.state)
      && (r.state.Interrupted? <==> exists e <- rt.trace :: e.SettlementFailed? && e.actionId == id)
  {
    hide Next;
    PlaySettles(turns);
    assert Kept(id, Play(turns).records[id], Play(turns).outcomes, Play(turns).trace);
  }

  /** A recorded outcome is never replaced, whatever the receipts. */
  lemma OutcomesAreKept(rt: Runtime, turn: Turn, receipt: string)
    requires receipt in rt.outcomes
    ensures receipt in Next(rt, turn).outcomes && Next(rt, turn).outcomes[receipt] == rt.outcomes[receipt]
  {
    hide OnExecute, OnDecided, OnDecisionHook, OnDispatchHook, ValidApproval, LocalDecision;
    if turn.OnAction? && turn.actionId in rt.records {
      NewOutcomeIsNew(rt, rt.records[turn.actionId], turn.op);
    }
  }

  lemma NewOutcomeIsNew(rt: Runtime, r: Record, op: Op)
    ensures var c := OnOp(rt, r, op); c.outcome.Some? ==> c.outcome.value.receipt !in rt.outcomes
  {
    hide ValidApproval, LocalDecision, ValidDecision, Texts.Blank;
  }

  /** Without distinct receipts the outcome can be missing: an action that settles leaves
      Running exactly when its receipt has no outcome yet. */
  lemma SettlesExactlyOnNewReceipt(rt: Runtime, r: Record, ok: bool)
    requires Lifecycle(r) && r.point.Settling?
    ensures !OnOp(rt, r, SettlementHook(ok)).record.state.Running? <==> r.started.value.receipt !in rt.outcomes
    ensures r.started.value.receipt in rt.outcomes ==> OnOp(rt, r, SettlementHook(ok)).record.point.Rejected?
  {}

  /** An action rejected in Running stays there, whatever turns follow. */
  lemma {:induction false} RejectedRunsForever(turns: seq<Turn>, later: seq<Turn>, id: string)
    requires id in Play(turns).records
    requires Play(turns).records[id].state.Running? && Play(turns).records[id].point.Rejected?
    ensures id in Play(turns + later).records
    ensures Play(turns + later).records[id].state.Running? && Play(turns + later).records[id].point.Rejected?
    decreases |later|
  {
    if later == [] {
      assert turns + later == turns;
    } else {
      var n := |later| - 1;
      hide OnExecute, OnDecided, OnDecisionHook, OnDispatchHook, OnHandlerDone, OnSettlementHook, ValidApproval,
           LocalDecision;
      RejectedRunsForever(turns, later[..n], id);
      assert (turns + later)[..|turns + later| - 1] == turns + later[..n];
      assert (turns + later)[|turns + later| - 1] == later[n];
      RejectedStays(Play(turns + later[..n]), later[n], id);
    }
  }

  lemma RejectedStays(rt: Runtime, turn: Turn, id: string)
    requires id in rt.records && rt.records[id].state.Running? && rt.records[id].point.Rejected?
    ensures id in Next(rt, turn).records
    ensures Next(rt, turn).records[id].state.Running? && Next(rt, turn).records[id].point.Rejected?
  {
    hide OnDecided, OnDecisionHook, OnDispatchHook, OnHandlerDone, OnSettlementHook, ValidApproval, LocalDecision;
  }
}
