/** Action states follow the transition table, terminal states absorb, a cancel before
    Running keeps the handler out, and leaving Running records one outcome. */
module ActionSettlement {
  import opened Wrappers
  import Texts
  import opened ActionRuntime
  import opened ActionAuthority

  // ---------- the transition table ----------

  ghost predicate FollowsTable(history: seq<ActionState>) {
    && history != [] && history[0].Proposed?
    && forall i :: 0 < i < |history| ==> history[i] in Successors(history[i - 1])
  }

  ghost predicate Proper(r: Record) { FollowsTable(r.history) && r.history[|r.history| - 1] == r.state }

  /** How one turn may move a record: along the table, and not at all from a terminal state. */
  ghost predicate MovesProperly(r: Record, next: Record) {
    && Proper(next) && r.history <= next.history
    && (TerminalState(r.state) ==> next.state == r.state && next.history == r.history)
  }

  /** The transitions of one turn: none, one, or through Allowed to Starting. */
  ghost predicate Transits(r: Record, next: Record) {
    || (next.state == r.state && next.history == r.history)
    || (next.state in Successors(r.state) && next.history == r.history + [next.state])
    || (r.state.Evaluating? && next.state.Starting? && next.history == r.history + [Allowed, Starting])
  }

  lemma TransitIsProper(r: Record, next: Record)
    requires Proper(r) && Transits(r, next)
    ensures MovesProperly(r, next)
  {
    if next.history == r.history + [Allowed, Starting] && r.state.Evaluating? {
      assert next.history[|r.history|] == Allowed && next.history[|r.history| + 1] == Starting;
      assert next.history[|r.history| - 1] == Evaluating;
    }
  }

  lemma ExecuteTransits(rt: Runtime, r: Record, now: int, registered: bool, formed: bool)
    ensures Transits(r, OnExecute(rt, r, now, registered, formed).record)
    ensures OnExecute(rt, r, now, registered, formed).events == []
    ensures OnExecute(rt, r, now, registered, formed).record.proposal == r.proposal
  {
    hide ValidApproval, ValidDecision, LocalDecision;
  }

  lemma DecisionTransits(rt: Runtime, r: Record, op: Op)
    requires r.point.Persisting? && op.DecisionHook?
    ensures Transits(r, OnDecisionHook(rt, r, op).record)
    ensures OnDecisionHook(rt, r, op).record.proposal == r.proposal
    ensures forall e <- OnDecisionHook(rt, r, op).events :: !e.Entered?
  {
    hide ValidApproval, ValidStarted, LocalDecision;
  }

  lemma SettlementTransits(rt: Runtime, r: Record, op: Op)
    requires (r.point.Handling? && op.HandlerDone?) || (r.point.Settling? && op.SettlementHook?)
    ensures var c := OnOp(rt, r, op);
            Transits(r, c.record) && c.record.proposal == r.proposal && forall e <- c.events :: !e.Entered?
  {}

  /** Only the dispatch barrier enters the handler, and only from Starting. */
  lemma DispatchTransits(r: Record, ok: bool, now: int)
    requires r.point.Dispatching?
    ensures var c := OnDispatchHook(r, ok, now);
      && Transits(r, c.record) && c.record.proposal == r.proposal
      && forall e <- c.events :: e.Entered? ==>
            e.actionId == r.proposal.actionId && r.state.Starting? && c.record.state.Running?
  {
    hide ValidApproval;
  }

  lemma OpTransits(rt: Runtime, r: Record, op: Op)
    ensures var c := OnOp(rt, r, op);
      && Transits(r, c.record) && c.record.proposal == r.proposal
      && forall e <- c.events :: e.Entered? ==>
            e.actionId == r.proposal.actionId && r.state.Starting? && c.record.state.Running?
  {
    hide OnExecute, OnDecisionHook, OnDispatchHook, OnHandlerDone, OnSettlementHook, ValidDecision, LocalDecision;
    match op {
      case Execute(now, registered, formed) => ExecuteTransits(rt, r, now, registered, formed);
      case DecisionHook(_, _, _, _, _) => if r.point.Persisting? { DecisionTransits(rt, r, op); }
      case DispatchHook(ok, now) => if r.point.Dispatching? { DispatchTransits(r, ok, now); }
      case HandlerDone(_) => if r.point.Handling? { SettlementTransits(rt, r, op); }
      case SettlementHook(_) => if r.point.Settling? { SettlementTransits(rt, r, op); }
      case _ =>
    }
  }

  ghost predicate RunProper(rt: Runtime) {
    && (forall id <- rt.records :: Proper(rt.records[id]) && rt.records[id].proposal.actionId == id)
    && (forall e <- rt.trace :: e.Entered? ==>
          e.actionId in rt.records && !Cancellable(rt.records[e.actionId].state))
  }

  lemma NextTransits(rt: Runtime, turn: Turn, id: string)
    requires id in rt.records
    ensures id in Next(rt, turn).records
    ensures Transits(rt.records[id], Next(rt, turn).records[id])
    ensures Next(rt, turn).records[id].proposal == rt.records[id].proposal
  {
    hide OnOp, ValidApproval;
    if turn.OnAction? && turn.actionId in rt.records {
      OpTransits(rt, rt.records[turn.actionId], turn.op);
    }
  }

  lemma NextEntries(rt: Runtime, turn: Turn, e: Event)
    requires e in Next(rt, turn).trace && e !in rt.trace && e.Entered?
    requires forall id <- rt.records :: rt.records[id].proposal.actionId == id
    ensures e.actionId in rt.records && rt.records[e.actionId].state.Starting?
    ensures e.actionId in Next(rt, turn).records && Next(rt, turn).records[e.actionId].state.Running?
  {
    hide OnOp, ValidApproval;
    if turn.OnAction? && turn.actionId in rt.records {
      OpTransits(rt, rt.records[turn.actionId], turn.op);
    }
  }

  lemma NextIsProper(rt: Runtime, turn: Turn)
    requires RunProper(rt)
    ensures RunProper(Next(rt, turn))
  {
    hide OnOp, ValidApproval, Proper;
    var next := Next(rt, turn);
    forall id | id in next.records ensures Proper(next.records[id]) && next.records[id].proposal.actionId == id {
      if id in rt.records {
        NextTransits(rt, turn, id);
        TransitIsProper(rt.records[id], next.records[id]);
      } else {
        NewIsProper(next.records[id].proposal);
      }
    }
    forall e | e in next.trace && e.Entered?
      ensures e.actionId in next.records && !Cancellable(next.records[e.actionId].state)
    {
      if e in rt.trace {
        NextTransits(rt, turn, e.actionId);
      } else {
        NextEntries(rt, turn, e);
      }
    }
  }

  lemma NewIsProper(p: Proposal)
    ensures Proper(NewRecord(p))
  {}

  lemma {:induction false} PlayIsProper(turns: seq<Turn>)
    ensures RunProper(Play(turns))
  {
    hide Next;
    if turns != [] {
      PlayIsProper(turns[..|turns| - 1]);
      NextIsProper(Play(turns[..|turns| - 1]), turns[|turns| - 1]);
    }
  }

  /** In every interleaving, every state sequence follows the transition table and ends
      in the current state. */
  lemma StatesFollowTable(turns: seq<Turn>, id: string)
    requires id in Play(turns).records
    ensures Proper(Play(turns).records[id])
  {
    hide Next;
    PlayIsProper(turns);
  }

  /** Terminal states absorb: whatever turns follow, the action keeps its state and its
      handler is not entered any more. */
  lemma {:induction false} TerminalAbsorbs(turns: seq<Turn>, later: seq<Turn>, id: string)
    requires id in Play(turns).records && TerminalState(Play(turns).records[id].state)
    ensures id in Play(turns + later).records
    ensures Play(turns + later).records[id].history == Play(turns).records[id].history
    ensures Play(turns + later).records[id].state == Play(turns).records[id].state
    ensures forall e <- Play(turns + later).trace :: Entry(e, id) ==> e in Play(turns).trace
    decreases |later|
  {
    hide Next;
    if later == [] {
      assert turns + later == turns;
    } else {
      var n := |later| - 1;
      TerminalAbsorbs(turns, later[..n], id);
      assert (turns + later)[..|turns + later| - 1] == turns + later[..n];
      assert (turns + later)[|turns + later| - 1] == later[n];
      PlayIsProper(turns + later[..n]);
      var rt := Play(turns + later[..n]);
      NextTransits(rt, later[n], id);
      forall e | e in Next(rt, later[n]).trace && Entry(e, id) ensures e in Play(turns).trace {
        if e !in rt.trace { NextEntries(rt, later[n], e); }
      }
    }
  }

  /** A cancel that takes effect before Running keeps the handler from ever running. */
  lemma CancelBeforeRunning(turns: seq<Turn>, id: string, later: seq<Turn>)
    requires id in Play(turns).records && Cancellable(Play(turns).records[id].state)
    ensures var rt := Play(turns + [OnAction(id, Cancel)] + later);
            id in rt.records && rt.records[id].state.Cancelled? && forall e <- rt.trace :: !Entry(e, id)
  {
    hide Play, Next;
    var cancelled := turns + [OnAction(id, Cancel)];
    CancelTurn(turns, id);
    TerminalAbsorbs(cancelled, later, id);
  }

  lemma CancelTurn(turns: seq<Turn>, id: string)
    requires id in Play(turns).records && Cancellable(Play(turns).records[id].state)
    ensures var rt := Play(turns + [OnAction(id, Cancel)]);
            id in rt.records && rt.records[id].state.Cancelled? && forall e <- rt.trace :: !Entry(e, id)
  {
    var cancelled := turns + [OnAction(id, Cancel)];
    assert cancelled[..|turns|] == turns;
    PlayIsProper(turns);
    CancelChanges(Play(turns), id);
  }

  lemma CancelChanges(rt: Runtime, id: string)
    requires id in rt.records && Cancellable(rt.records[id].state)
    ensures var next := Next(rt, OnAction(id, Cancel));
            id in next.records && next.records[id].state.Cancelled? && next.trace == rt.trace
  {}
}
