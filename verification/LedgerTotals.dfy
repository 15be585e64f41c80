/** What the projection's other fields say about an accepted ledger: its counters, its
    completion time, its recovery requirement and its last command result. */
module LedgerTotals {
  import opened Wrappers
  import opened SessionLedger
  import opened LedgerEffects

  /** How many entries of the path are of one of these types. */
  function Count(path: seq<Entry>, kinds: set<EventType>): nat {
    if path == [] then 0
    else Count(path[..|path| - 1], kinds) + if path[|path| - 1].kind in kinds then 1 else 0
  }

  /** The index of the latest entry of a type, or none. */
  function Latest(path: seq<Entry>, kind: EventType): Option<nat> {
    if path == [] then None
    else if path[|path| - 1].kind == kind then Some(|path| - 1)
    else Latest(path[..|path| - 1], kind)
  }

  lemma {:induction false} LatestIsThere(path: seq<Entry>, kind: EventType)
    ensures match Latest(path, kind)
            case Some(i) => i < |path| && path[i].kind == kind && forall j :: i < j < |path| ==> path[j].kind != kind
            case None => forall j :: 0 <= j < |path| ==> path[j].kind != kind
  {
    if path != [] && path[|path| - 1].kind != kind { LatestIsThere(path[..|path| - 1], kind); }
  }

  /** A recovery asks for something only while the status says so. */
  predicate RequirementFits(s: State) {
    && (s.completedAt.Some? <==> Terminal(s.status))
    && (s.requirement.Some? ==>
          && s.status == (if s.requirement.value.unknownOrInterrupted then Interrupted else NeedsRecovery)
          && (s.requirement.value.unknownOrInterrupted <==> s.requirement.value.reason.PlainInterruption?))
  }

  /** What one accepted entry does to the fields apart from the pending record. */
  ghost predicate TotalsMove(s: State, e: Entry, t: State) {
    && t.messageCount == s.messageCount + (if e.kind in {UserMessage, ModelMessage} then 1 else 0)
    && t.toolCallCount == s.toolCallCount + (if e.kind in {ToolRequested} then 1 else 0)
    && t.patchCount == s.patchCount + (if e.kind in {PatchProposed} then 1 else 0)
    && t.commandCount == s.commandCount + (if e.kind in {CommandProposed} then 1 else 0)
    && t.artifactCount == s.artifactCount + (if e.kind in {ArtifactCreated} then 1 else 0)
    && t.lastCommandResult == (if e.kind.CommandCompleted? then Some(e.payload) else s.lastCommandResult)
    && t.completedAt == (if IsMaskingTerminal(e.kind) then Some(e.createdAt) else s.completedAt)
    && t.requirement == (
         if IsMaskingTerminal(e.kind) || e.kind.RecoveryCompleted? || IsApproval(e.kind) || IsDenial(e.kind) then None
         else if IsSettlement(e.kind) && !e.kind.ActionFailed? then None
         else if e.kind.ActionDecided? && e.meta.decision != Some(Allow) then None
         else if e.kind.SessionInterrupted? then Some(Requirement(PlainInterruption, true))
         else if e.kind.RecoveryRequired? then Some(Requirement(ReasonOf(e), ReasonOf(e).PlainInterruption?))
         else s.requirement)
  }

  lemma ActingMoves(s: State, e: Entry)
    requires IsProposal(e.kind) || IsApproval(e.kind) || IsDenial(e.kind) || IsStart(e.kind)
    requires Apply(s, e).Ok?
    ensures TotalsMove(s, e, Apply(s, e).value)
  {
    hide Decide, Settle, Recover, ProposalDigestOf, ActionIdOf, ApprovalBinding;
  }

  lemma DecidingMoves(s: State, e: Entry)
    requires e.kind.ActionDecided? && Decide(s, e).Ok?
    ensures TotalsMove(s, e, Decide(s, e).value)
  {
    hide ActionIdOf, ApprovalBinding, CommandDecisionEvidence;
  }

  lemma SettlingMoves(s: State, e: Entry)
    requires IsSettlement(e.kind) && Settle(s, e).Ok?
    ensures TotalsMove(s, e, Settle(s, e).value)
  {
    hide ActionIdOf, RequireStarted;
  }

  lemma StepTotals(s: State, e: Entry, t: State)
    requires Step(s, e) == Ok(t)
    ensures TotalsMove(s, e, t)
  {
    hide Propose, Approve, Decide, Start, Settle, DenyPending;
    var noted := s.(seen := s.seen + {e.id}, last := Some(e.sequence));
    if IsProposal(e.kind) || IsApproval(e.kind) || IsDenial(e.kind) || IsStart(e.kind) {
      ActingMoves(noted, e);
    } else if e.kind.ActionDecided? {
      DecidingMoves(noted, e);
    } else if IsSettlement(e.kind) {
      SettlingMoves(noted, e);
    }
  }

  lemma FitsStep(s: State, e: Entry, t: State)
    requires RequirementFits(s) && Sound(s) && Effect(s, e, t) && TotalsMove(s, e, t)
    requires e.kind.RecoveryRequired? ==>
        t.status == if ReasonOf(e).PlainInterruption? then Interrupted else NeedsRecovery
    ensures RequirementFits(t)
  {}

  lemma RecoveryStatus(s: State, e: Entry, t: State)
    requires Step(s, e) == Ok(t) && e.kind.RecoveryRequired?
    ensures t.status == if ReasonOf(e).PlainInterruption? then Interrupted else NeedsRecovery
  {}

  /** The counters are the numbers of entries of each type; the completion time is that of
      the last entry; the last command result is that of the latest completed command. */
  ghost predicate Totals(path: seq<Entry>, s: State) {
    && s.messageCount == Count(path, {UserMessage, ModelMessage}) && s.toolCallCount == Count(path, {ToolRequested})
    && s.patchCount == Count(path, {PatchProposed}) && s.commandCount == Count(path, {CommandProposed})
    && s.artifactCount == Count(path, {ArtifactCreated})
    && (s.completedAt.Some? ==> path != [] && s.completedAt == Some(path[|path| - 1].createdAt))
    && (match Latest(path, CommandCompleted)
        case None => s.lastCommandResult.None?
        case Some(i) => i < |path| && s.lastCommandResult == Some(path[i].payload))
  }

  lemma TotalsStep(path: seq<Entry>, s: State, t: State)
    requires path != [] && Totals(path[..|path| - 1], s) && TotalsMove(s, path[|path| - 1], t)
    requires s.completedAt.None?
    ensures Totals(path, t)
  {}

  /** In every accepted ledger the projection's counters, times and results are those of
      its entries; it is completed exactly when its status is terminal; and a recovery
      requirement says interrupted, or waiting for a new approval, as the status does. */
  lemma {:induction false} TotalsExactly(path: seq<Entry>)
    requires Run(path).Ok?
    ensures Totals(path, Run(path).value) && RequirementFits(Run(path).value)
  {
    hide Step, TotalsMove, Effect, Totals, RequirementFits;
    if path == [] {
      assert Totals(path, INITIAL) && RequirementFits(INITIAL) by { NothingYet(); }
    } else {
      var n := |path| - 1;
      var s, t := LastEffect(path);
      TotalsExactly(path[..n]);
      RunIsSound(path[..n]);
      StepTotals(s, path[n], t);
      if path[n].kind.RecoveryRequired? { RecoveryStatus(s, path[n], t); }
      FitsStep(s, path[n], t);
      assert s.completedAt.None? by { Unfinished(s, path[n], t); }
      TotalsStep(path, s, t);
    }
  }

  lemma Unfinished(s: State, e: Entry, t: State)
    requires Effect(s, e, t) && RequirementFits(s)
    ensures s.completedAt.None?
  {}

  lemma NothingYet()
    ensures Totals([], INITIAL) && RequirementFits(INITIAL)
  {}
}
