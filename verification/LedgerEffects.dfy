/** The effect of each class of accepted entry on the projector's variables. */
module LedgerEffects {
  import opened Wrappers
  import opened SessionLedger

  // ---------- the effect of an accepted entry ----------

  datatype Class =
    | Proposes | Approves | Decides | Denies | Begins | Settles
    | Reapproves | Interrupts | Ends | Resumes | Passes

  function ClassOf(e: Entry): Class {
    if IsProposal(e.kind) then Proposes
    else if IsApproval(e.kind) then Approves
    else if e.kind.ActionDecided? then Decides
    else if IsDenial(e.kind) then Denies
    else if IsStart(e.kind) then Begins
    else if IsSettlement(e.kind) then Settles
    else if IsReapproval(e) then Reapproves
    else if e.kind.RecoveryRequired? || e.kind.SessionInterrupted? then Interrupts
    else if IsMaskingTerminal(e.kind) then Ends
    else if e.kind.RecoveryCompleted? then Resumes
    else Passes
  }

  /** The entry names the pending action. */
  ghost predicate Names(e: Entry, p: Pending) {
    ActionIdOf(e) == Some(p.actionId) && p.actionId != ""
  }

  ghost predicate NamesKind(e: Entry, p: Pending) {
    Names(e, p) && EntryKind(e.kind) == Some(p.kind)
  }

  /** What an accepted entry of each class finds and leaves in the pending record. */
  ghost predicate Moves(s: State, e: Entry, t: State) {
    match ClassOf(e)
    case Proposes =>
      && s.pending.None? && t.pending.Some? && t.status == s.status
      && var q := t.pending.value;
      && NamesKind(e, q) && q.proposalEntryId == e.id && q.approvalGeneration == 0
      && q.taskId == NonBlank(e.meta.taskId) && q.proposalDigest == ProposalDigestOf(e)
      && !q.approved && q.approvalId.None? && !q.started && !q.settled && !q.decisionRecorded
    case Approves =>
      && s.pending.Some? && t.status.Active?
      && var p := s.pending.value;
      && NamesKind(e, p) && !p.started && !p.approved
      && ApprovalIdOf(e).Some? && ApprovalIdOf(e).value !in s.approvalIds
      && t.approvalIds == s.approvalIds + {ApprovalIdOf(e).value}
      && GenerationOf(e) == Some(p.approvalGeneration)
      && t.pending == Some(p.(approved := true, approvalId := ApprovalIdOf(e), recoveryRequired := false))
    case Decides =>
      && s.pending.Some? && t.status == s.status
      && var p := s.pending.value;
      && Names(e, p) && p.approved && !p.started && !p.decisionRecorded && !p.kind.Patch?
      && ApprovalIdOf(e).Some? && ApprovalIdOf(e) == p.approvalId && GenerationOf(e) == Some(p.approvalGeneration)
      && (p.taskId.Some? ==> e.meta.taskId == p.taskId)
      && (p.kind.Command? ==> p.taskId.Some? && p.proposalDigest.Some? && e.meta.proposalDigest == p.proposalDigest)
      && e.meta.decisionId.Some? && e.meta.decisionId.value !in s.decisionIds
      && t.decisionIds == s.decisionIds + {e.meta.decisionId.value}
      && (e.meta.decision == Some(Allow) ==>
            && t.pending.Some?
            && var q := t.pending.value;
            && q == p.(decisionRecorded := true, decisionId := e.meta.decisionId, decision := Some(Allow),
                       reasonCode := q.reasonCode, decidedAt := q.decidedAt,
                       policyVersion := q.policyVersion, decisionSchemaVersion := q.decisionSchemaVersion,
                       agentFuseCommit := q.agentFuseCommit))
      && (e.meta.decision != Some(Allow) ==> t.pending.None?)
    case Denies =>
      && s.pending.Some? && t.status == s.status && t.pending.None?
      && NamesKind(e, s.pending.value) && !s.pending.value.started
    case Begins =>
      && s.pending.Some? && t.status == s.status
      && var p := s.pending.value;
      && NamesKind(e, p) && p.approved && !p.started
      && ApprovalIdOf(e) == p.approvalId && GenerationOf(e) == Some(p.approvalGeneration)
      && (!p.kind.Patch? ==> p.decisionRecorded && e.meta.decisionId == p.decisionId)
      && ReceiptOf(e).Some?
      && t.pending == Some(p.(started := true, executionReceiptId := ReceiptOf(e)))
    case Settles =>
      && s.pending.Some? && t.status == s.status && t.pending.None?
      && Names(e, s.pending.value) && s.pending.value.started && s.pending.value.approved
      && ApprovalIdOf(e) == s.pending.value.approvalId && GenerationOf(e) == Some(s.pending.value.approvalGeneration)
      && ReceiptOf(e).Some? && ReceiptOf(e) == s.pending.value.executionReceiptId
    case Reapproves =>
      && t.status.NeedsRecovery?
      && (s.pending.None? ==> t.pending.None?)
      && (s.pending.Some? ==>
            && t.pending.Some?
            && var p, q := s.pending.value, t.pending.value;
            && !p.started && GenerationOf(e) == Some(q.approvalGeneration)
            && q.approvalGeneration == p.approvalGeneration + 1
            && !q.approved && q.approvalId.None? && !q.decisionRecorded
            && q.kind == p.kind && q.actionId == p.actionId && q.proposalEntryId == p.proposalEntryId
            && q.taskId == p.taskId && q.proposalDigest == p.proposalDigest
            && !q.started && q.settled == p.settled && q.recoveryRequired)
    case Interrupts =>
      && t.status.Interrupted?
      && (s.pending.None? ==> t.pending.None?)
      && (s.pending.Some? ==>
            t.pending == Some(s.pending.value.(recoveryRequired := !s.pending.value.started,
                                               approved := false, approvalId := None)))
    case Ends => !StartedUnsettled(s.pending) && t.pending.None? && t.status == EndStatus(e.kind)
    case Resumes => s.pending.None? && t.pending.None? && t.status.Active?
    case Passes => t.pending == s.pending && t.status == s.status
  }

  /** The whole effect of an accepted entry on the loop's variables. */
  ghost predicate Effect(s: State, e: Entry, t: State) {
    && !Terminal(s.status)
    && e.id !in s.seen && t.seen == s.seen + {e.id}
    && (s.last.Some? ==> s.last.value < e.sequence && !e.kind.SessionCreated?)
    && t.last == Some(e.sequence)
    && (!IsApproval(e.kind) ==> t.approvalIds == s.approvalIds)
    && (!e.kind.ActionDecided? ==> t.decisionIds == s.decisionIds)
    && Moves(s, e, t)
  }

  lemma ProposeMoves(s: State, e: Entry, kind: Kind)
    requires IsProposal(e.kind) && EntryKind(e.kind) == Some(kind) && Propose(s, e, kind).Ok?
    ensures Moves(s, e, Propose(s, e, kind).value)
    ensures var t := Propose(s, e, kind).value; s == t.(pending := s.pending)
  {}

  lemma ApproveMoves(s: State, e: Entry)
    requires IsApproval(e.kind) && Approve(s, e).Ok?
    ensures Moves(s, e, Approve(s, e).value)
    ensures var t := Approve(s, e).value;
            t.seen == s.seen && t.last == s.last && t.decisionIds == s.decisionIds
  {}

  lemma DecideMoves(s: State, e: Entry)
    requires e.kind.ActionDecided? && Decide(s, e).Ok?
    ensures Moves(s, e, Decide(s, e).value)
    ensures var t := Decide(s, e).value;
            t.seen == s.seen && t.last == s.last && t.approvalIds == s.approvalIds
  {}

  lemma StartMoves(s: State, e: Entry)
    requires IsStart(e.kind) && Start(s, e).Ok?
    ensures Moves(s, e, Start(s, e).value)
    ensures var t := Start(s, e).value; s == t.(pending := s.pending)
  {}

  lemma SettleMoves(s: State, e: Entry)
    requires IsSettlement(e.kind) && Settle(s, e).Ok?
    ensures Moves(s, e, Settle(s, e).value)
    ensures var t := Settle(s, e).value;
            s == t.(pending := s.pending, requirement := s.requirement, lastCommandResult := s.lastCommandResult)
  {}

  lemma RecoverMoves(s: State, e: Entry)
    requires e.kind.RecoveryRequired? && Recover(s, e).Ok?
    ensures Moves(s, e, Recover(s, e).value)
    ensures var t := Recover(s, e).value;
            s == t.(pending := s.pending, requirement := s.requirement, status := s.status)
  {}

  lemma StepEffect(s: State, e: Entry, t: State)
    requires Step(s, e) == Ok(t)
    ensures Effect(s, e, t)
  {
    hide Propose, Approve, Decide, Start, Settle, Recover;
    var noted := s.(seen := s.seen + {e.id}, last := Some(e.sequence));
    match e.kind {
      case ActionProposed => ProposeMoves(noted, e, Action);
      case PatchProposed => ProposeMoves(noted.(patchCount := s.patchCount + 1), e, Patch);
      case CommandProposed => ProposeMoves(noted.(commandCount := s.commandCount + 1), e, Command);
      case ActionApproved | PatchApproved | CommandApproved => ApproveMoves(noted, e);
      case ActionDecided => DecideMoves(noted, e);
      case ActionStarted | PatchStarted | CommandStarted => StartMoves(noted, e);
      case ActionCompleted | PatchApplied | CommandCompleted | ActionFailed => SettleMoves(noted, e);
      case RecoveryRequired => RecoverMoves(noted, e);
      case _ =>
    }
  }

  /** The states before and after the last entry of a path. */
  lemma LastEffect(path: seq<Entry>) returns (s: State, t: State)
    requires path != [] && Run(path).Ok?
    ensures Run(path[..|path| - 1]) == Ok(s) && Run(path) == Ok(t)
    ensures Effect(s, path[|path| - 1], t)
  {
    hide Step;
    s, t := Run(path[..|path| - 1]).value, Run(path).value;
    StepEffect(s, path[|path| - 1], t);
  }

  /** The states before and after entry j of a path. */
  lemma EffectAt(path: seq<Entry>, j: nat) returns (s: State, t: State)
    requires j < |path| && Run(path).Ok?
    ensures Run(path[..j]) == Ok(s) && Run(path[..j + 1]) == Ok(t)
    ensures Effect(s, path[j], t)
  {
    hide Step, Run;
    PrefixAccepted(path, j + 1);
    s, t := LastEffect(path[..j + 1]);
    assert path[..j + 1][..j] == path[..j];
  }

  /** How the pending record and the status fit together. */
  ghost predicate Sound(s: State) {
    s.pending.Some? ==>
      var p := s.pending.value;
      && !p.settled
      && !Terminal(s.status)
      && (p.approved <==> p.approvalId.Some?)
      && (p.approved ==> s.status.Active?)
      && (p.started && !p.approved ==> s.status.Interrupted?)
      && (p.decisionRecorded ==> p.decision == Some(Allow) && p.decisionId.Some?)
      && p.approvalGeneration >= 0
      && p.actionId != ""
  }

  lemma EffectKeepsSound(s: State, e: Entry, t: State)
    requires Sound(s) && Effect(s, e, t)
    ensures Sound(t)
  {}

  lemma {:induction false} RunIsSound(path: seq<Entry>)
    requires Run(path).Ok?
    ensures Sound(Run(path).value)
  {
    hide Step;
    if path != [] {
      var s, t := LastEffect(path);
      RunIsSound(path[..|path| - 1]);
      EffectKeepsSound(s, path[|path| - 1], t);
    }
  }

  /** How an accepted entry moves the started action: a start adds it, a settlement
      takes it away, an end of the session cannot hide it, and nothing else touches it. */
  ghost predicate StartedMoves(s: State, e: Entry, t: State) {
    var before, after := StartedUnsettled(s.pending), StartedUnsettled(t.pending);
    if IsStart(e.kind) then !before && after && Names(e, t.pending.value)
    else if IsSettlement(e.kind) then before && !after && Names(e, s.pending.value)
    else
      && after == before
      && (IsMaskingTerminal(e.kind) ==> !before)
      && (before ==> t.pending.value.actionId == s.pending.value.actionId)
  }

  lemma EffectMovesStarted(s: State, e: Entry, t: State)
    requires Sound(s) && Effect(s, e, t)
    ensures StartedMoves(s, e, t)
  {}
}
