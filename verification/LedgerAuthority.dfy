/** What every accepted ledger keeps: authorisation of starts, no replay after an
    interruption, and conservation of started actions. */
module LedgerAuthority {
  import opened Wrappers
  import opened SessionLedger
  import opened LedgerEffects

  // ---------- no replay ----------

  /** A started action that was interrupted: nothing the ledger accepts can move it. */
  ghost predicate Frozen(s: State, actionId: string, receipt: Option<string>) {
    && s.status.Interrupted? && s.last.Some?
    && s.pending.Some?
    && s.pending.value.actionId == actionId
    && s.pending.value.executionReceiptId == receipt
    && s.pending.value.started && !s.pending.value.settled
    && !s.pending.value.approved && s.pending.value.approvalId.None?
  }

  /** An entry that neither acts on an action nor ends or resumes the session. */
  predicate Harmless(e: Entry) {
    || e.kind.UserMessage? || e.kind.ModelMessage? || e.kind.ToolRequested? || e.kind.ToolCompleted?
    || e.kind.ArtifactCreated? || e.kind.AgentStateChanged? || e.kind.SessionInterrupted?
    || (e.kind.RecoveryRequired? && !IsReapproval(e))
  }

  predicate IsInterruption(e: Entry) {
    e.kind.SessionInterrupted? || (e.kind.RecoveryRequired? && !IsReapproval(e))
  }

  lemma FrozenStep(s: State, e: Entry, t: State, actionId: string, receipt: Option<string>)
    requires Frozen(s, actionId, receipt) && Effect(s, e, t)
    ensures Harmless(e) && Frozen(t, actionId, receipt)
  {}

  /** Exactly the harmless entries are accepted, given a new id and a later sequence. */
  lemma FrozenAcceptsExactly(s: State, e: Entry, actionId: string, receipt: Option<string>)
    requires Frozen(s, actionId, receipt)
    ensures Step(s, e).Ok? <==> Harmless(e) && e.id !in s.seen && s.last.value < e.sequence
  {
    if Step(s, e).Ok? {
      StepEffect(s, e, Step(s, e).value);
      FrozenStep(s, e, Step(s, e).value, actionId, receipt);
    }
  }

  lemma InterruptionFreezes(s: State, e: Entry, t: State)
    requires Effect(s, e, t) && IsInterruption(e) && StartedUnsettled(s.pending)
    ensures Frozen(t, s.pending.value.actionId, s.pending.value.executionReceiptId)
  {}

  lemma {:induction false} FrozenForever(path: seq<Entry>, n: nat, actionId: string, receipt: Option<string>)
    requires n <= |path| && Run(path).Ok?
    requires Run(path[..n]).Ok? && Frozen(Run(path[..n]).value, actionId, receipt)
    ensures Frozen(Run(path).value, actionId, receipt)
    ensures forall j :: n <= j < |path| ==> Harmless(path[j])
  {
    hide Step, Run;
    if n == |path| {
      assert path[..n] == path;
    } else {
      var before := path[..|path| - 1];
      assert before[..n] == path[..n];
      var s, t := LastEffect(path);
      FrozenForever(before, n, actionId, receipt);
      FrozenStep(s, path[|path| - 1], t, actionId, receipt);
    }
  }

  /** No replay: once an accepted path interrupts a started action, everything after
      it is harmless and the same action stays pending, started and interrupted. */
  lemma NoReplay(path: seq<Entry>, i: nat)
    requires Accepted(path) && i < |path| && IsInterruption(path[i])
    requires Run(path[..i]).Ok? && StartedUnsettled(Run(path[..i]).value.pending)
    ensures var p := Run(path[..i]).value.pending.value;
            Run(path).Ok? && Frozen(Run(path).value, p.actionId, p.executionReceiptId)
    ensures forall j :: i < j < |path| ==> Harmless(path[j])
  {
    hide Step, Run;
    var s, t := EffectAt(path, i);
    InterruptionFreezes(s, path[i], t);
    FrozenForever(path, i + 1, s.pending.value.actionId, s.pending.value.executionReceiptId);
  }

  // ---------- conservation ----------

  function Starts(path: seq<Entry>): nat {
    if path == [] then 0
    else Starts(path[..|path| - 1]) + if IsStart(path[|path| - 1].kind) then 1 else 0
  }

  function Settlements(path: seq<Entry>): nat {
    if path == [] then 0
    else Settlements(path[..|path| - 1]) + if IsSettlement(path[|path| - 1].kind) then 1 else 0
  }

  /** Started actions are settled one by one: the difference is 1 exactly while the
      pending action is started, and 0 otherwise. */
  lemma {:induction false} Conservation(path: seq<Entry>)
    requires Run(path).Ok?
    ensures Starts(path) == Settlements(path) + if StartedUnsettled(Run(path).value.pending) then 1 else 0
  {
    hide Step, Effect;
    if path != [] {
      var s, t := LastEffect(path);
      Conservation(path[..|path| - 1]);
      RunIsSound(path[..|path| - 1]);
      EffectMovesStarted(s, path[|path| - 1], t);
    }
  }

  // ---------- authorisation ----------

  /** Restart reapprovals in path[lo..hi]. */
  function Reapprovals(path: seq<Entry>, lo: nat, hi: nat): nat
    requires lo <= hi <= |path|
    decreases hi
  {
    if lo == hi then 0
    else Reapprovals(path, lo, hi - 1) + if IsReapproval(path[hi - 1]) then 1 else 0
  }

  lemma {:induction false} ReapprovalsOfPrefix(path: seq<Entry>, n: nat, lo: nat, hi: nat)
    requires lo <= hi <= n <= |path|
    ensures Reapprovals(path[..n], lo, hi) == Reapprovals(path, lo, hi)
    decreases hi
  {
    if lo < hi { ReapprovalsOfPrefix(path, n, lo, hi - 1); }
  }

  /** The proposal at k is the one the pending action comes from. */
  ghost predicate ProposedAt(path: seq<Entry>, p: Pending, k: nat) {
    && k < |path|
    && IsProposal(path[k].kind) && EntryKind(path[k].kind) == Some(p.kind)
    && path[k].id == p.proposalEntryId && ActionIdOf(path[k]) == Some(p.actionId)
    && p.taskId == NonBlank(path[k].meta.taskId) && p.proposalDigest == ProposalDigestOf(path[k])
    && p.approvalGeneration == Reapprovals(path, k + 1, |path|)
    && forall j :: k < j < |path| ==> !IsProposal(path[j].kind) && !IsSettlement(path[j].kind)
  }

  /** The approval at i stands for the pending action: it came after the proposal,
      names the current generation, and nothing took it away. */
  ghost predicate ApprovedAt(path: seq<Entry>, p: Pending, k: nat, i: nat) {
    && k < i < |path|
    && IsApproval(path[i].kind) && EntryKind(path[i].kind) == Some(p.kind)
    && ActionIdOf(path[i]) == Some(p.actionId)
    && ApprovalIdOf(path[i]) == p.approvalId && p.approvalId.Some?
    && GenerationOf(path[i]) == Some(p.approvalGeneration)
    && forall j :: i < j < |path| ==> !ClearsApproval(path[j])
  }

  /** The decision at d repeats what the approval at h and the proposal at k say. */
  ghost predicate DecidedUnder(path: seq<Entry>, k: nat, h: nat, d: nat) {
    && k < h < d < |path| && IsApproval(path[h].kind) && EntryKind(path[h].kind) == EntryKind(path[k].kind)
    && ActionIdOf(path[h]) == ActionIdOf(path[d])
    && ApprovalIdOf(path[h]).Some? && ApprovalIdOf(path[h]) == ApprovalIdOf(path[d])
    && GenerationOf(path[h]).Some? && GenerationOf(path[h]) == GenerationOf(path[d])
    && (forall j :: h < j < d ==> !ClearsApproval(path[j]))
    && (NonBlank(path[k].meta.taskId).Some? ==> path[d].meta.taskId == NonBlank(path[k].meta.taskId))
    && (path[k].kind.CommandProposed? ==> path[d].meta.proposalDigest == ProposalDigestOf(path[k]))
  }

  /** The decision at d stands for the pending action: it allowed it, under the approval at
      h, after the proposal and after the latest restart reapproval. */
  ghost predicate DecidedAt(path: seq<Entry>, p: Pending, k: nat, h: nat, d: nat) {
    && k < d < |path| && DecidedUnder(path, k, h, d)
    && path[d].kind.ActionDecided? && path[d].meta.decision == Some(Allow)
    && ActionIdOf(path[d]) == Some(p.actionId)
    && p.decisionId.Some? && path[d].meta.decisionId == p.decisionId
    && GenerationOf(path[d]) == Some(p.approvalGeneration)
    && forall j :: d < j < |path| ==> !IsReapproval(path[j])
  }

  /** Nothing took the approval at h away. */
  ghost predicate Uncleared(path: seq<Entry>, h: nat) { forall j :: h < j < |path| ==> !ClearsApproval(path[j]) }

  /** The entries that back a pending action; the decision was made under the approval
      that stands now, unless something took that one away since. */
  ghost predicate Backed(path: seq<Entry>, p: Pending, k: nat, i: nat, h: nat, d: nat) {
    && ProposedAt(path, p, k)
    && (p.approved ==> ApprovedAt(path, p, k, i))
    && (p.decisionRecorded ==> DecidedAt(path, p, k, h, d))
    && (p.decisionRecorded && Uncleared(path, h) ==> p.approved && h == i)
  }

  /** One more accepted entry keeps the backing, or replaces a part of it. */
  lemma BackingStep(path: seq<Entry>, s: State, t: State, k: nat, i: nat, h: nat, d: nat)
    requires path != [] && s.pending.Some? && t.pending.Some? && Sound(s)
    requires Effect(s, path[|path| - 1], t) && Backed(path[..|path| - 1], s.pending.value, k, i, h, d)
    ensures var n := |path| - 1;
            Backed(path, t.pending.value, k, if IsApproval(path[n].kind) then n else i,
                   if path[n].kind.ActionDecided? then i else h, if path[n].kind.ActionDecided? then n else d)
  {
    hide Effect, Sound;
    var n := |path| - 1;
    ReapprovalsOfPrefix(path, n, k + 1, n);
    PendingKept(s, path[n], t);
    var p, q := s.pending.value, t.pending.value;
    if q.decisionRecorded {
      if path[n].kind.ActionDecided? {
        assert ApprovedAt(path[..n], p, k, i);
        DecisionStep(path, s, t, k, i);
      } else {
        assert DecidedAt(path[..n], p, k, h, d);
        assert DecidedUnder(path, k, h, d);
        if Uncleared(path, h) {
          assert path[..n] + [path[n]] == path;
          assert Uncleared(path[..n], h);
          assert !IsApproval(path[n].kind);
        }
      }
    }
  }

  /** A decision is made under the approval that stands. */
  lemma DecisionStep(path: seq<Entry>, s: State, t: State, k: nat, i: nat)
    requires path != [] && s.pending.Some? && t.pending.Some? && path[|path| - 1].kind.ActionDecided?
    requires Effect(s, path[|path| - 1], t)
    requires ProposedAt(path[..|path| - 1], s.pending.value, k) && ApprovedAt(path[..|path| - 1], s.pending.value, k, i)
    ensures t.pending.value.approved && DecidedAt(path, t.pending.value, k, i, |path| - 1)
  {
    assert path[..|path| - 1][k] == path[k] && path[..|path| - 1][i] == path[i];
  }

  /** What an accepted entry that neither proposes nor settles makes of a pending action. */
  ghost predicate Keeps(p: Pending, e: Entry, q: Pending) {
    && q.kind == p.kind && q.actionId == p.actionId && q.proposalEntryId == p.proposalEntryId
    && q.taskId == p.taskId && q.proposalDigest == p.proposalDigest
    && q.approvalGeneration == p.approvalGeneration + (if IsReapproval(e) then 1 else 0)
    && (ClearsApproval(e) ==> !q.approved)
    && (IsReapproval(e) ==> !q.decisionRecorded)
    && (IsApproval(e.kind) ==>
          && NamesKind(e, p) && !p.approved && q.approved && q.approvalId == ApprovalIdOf(e) && q.approvalId.Some?
          && GenerationOf(e) == Some(p.approvalGeneration))
    && (!ClearsApproval(e) && !IsApproval(e.kind) ==> q.approved == p.approved && q.approvalId == p.approvalId)
    && (e.kind.ActionDecided? ==>
          && Names(e, p) && p.approved && q.approved && q.decisionId == e.meta.decisionId && q.decisionId.Some?
          && e.meta.decision == Some(Allow))
    && (!IsReapproval(e) && !e.kind.ActionDecided? ==>
          q.decisionRecorded == p.decisionRecorded && q.decisionId == p.decisionId)
  }

  lemma PendingKept(s: State, e: Entry, t: State)
    requires Effect(s, e, t) && s.pending.Some? && t.pending.Some?
    ensures !IsProposal(e.kind) && !IsSettlement(e.kind) && Keeps(s.pending.value, e, t.pending.value)
  {}

  /** The backing of a pending action, found along the path. */
  lemma {:induction false} FindBacking(path: seq<Entry>) returns (k: nat, i: nat, h: nat, d: nat)
    requires Run(path).Ok? && Run(path).value.pending.Some?
    ensures Backed(path, Run(path).value.pending.value, k, i, h, d)
  {
    assert path != [];
    hide Step, Run;
    var n := |path| - 1;
    var s, t := LastEffect(path);
    RunIsSound(path[..n]);
    if IsProposal(path[n].kind) {
      k, i, h, d := n, n, n, n;
    } else {
      k, i, h, d := FindBacking(path[..n]);
      BackingStep(path, s, t, k, i, h, d);
      if path[n].kind.ActionDecided? { h, d := i, n; }
      if IsApproval(path[n].kind) { i := n; }
    }
  }

  /** The start at j is covered by the approval at i, given after the action's latest
      proposal, at k: the same action, the same approval id, a generation equal to the
      reapprovals since the proposal, and no recovery or interruption in between. */
  ghost predicate ApprovalCovers(path: seq<Entry>, k: nat, i: nat, j: nat)
    requires j < |path|
  {
    && k < i < j && IsProposal(path[k].kind) && IsApproval(path[i].kind)
    && EntryKind(path[k].kind) == EntryKind(path[i].kind) == EntryKind(path[j].kind)
    && ActionIdOf(path[k]) == ActionIdOf(path[i]) == ActionIdOf(path[j])
    && ApprovalIdOf(path[i]).Some? && ApprovalIdOf(path[i]) == ApprovalIdOf(path[j])
    && GenerationOf(path[i]) == GenerationOf(path[j]) == Some(Reapprovals(path, k + 1, j))
    && (forall m :: k < m < j ==> !IsProposal(path[m].kind) && !IsSettlement(path[m].kind))
    && (forall m :: i < m < j ==> !ClearsApproval(path[m]))
  }

  /** The start at j carries the id of the allow decision at d, recorded for its action
      after the proposal at k and after the latest restart reapproval. The decision repeats
      the id and the generation of the approval at h, under which it was made, the task of
      the proposal and, for a command, its digest; and the approval at h is the one at i
      that the start carries, unless something took it away before the start. */
  ghost predicate DecisionCovers(path: seq<Entry>, k: nat, i: nat, h: nat, d: nat, j: nat)
    requires j < |path|
  {
    && k < d < j && path[d].kind.ActionDecided? && path[d].meta.decision == Some(Allow)
    && ActionIdOf(path[d]) == ActionIdOf(path[j])
    && path[d].meta.decisionId.Some? && path[d].meta.decisionId == path[j].meta.decisionId
    && DecidedUnder(path, k, h, d) && GenerationOf(path[d]) == GenerationOf(path[j])
    && (forall m :: d < m < j ==> !IsReapproval(path[m]))
    && (h == i || exists m :: h < m < j && ClearsApproval(path[m]))
  }

  /** The start at j names the pending action as the projector requires. */
  ghost predicate StartsPending(e: Entry, p: Pending) {
    && NamesKind(e, p) && p.approved && ApprovalIdOf(e) == p.approvalId && GenerationOf(e) == Some(p.approvalGeneration)
    && (!e.kind.PatchStarted? ==> p.decisionRecorded && e.meta.decisionId == p.decisionId)
  }

  lemma StartChecks(s: State, e: Entry, t: State)
    requires Effect(s, e, t) && IsStart(e.kind)
    ensures s.pending.Some? && StartsPending(e, s.pending.value)
  {}

  lemma BackedStartIsCovered(path: seq<Entry>, p: Pending, k: nat, i: nat, h: nat, d: nat, j: nat)
    requires j < |path| && Backed(path[..j], p, k, i, h, d) && StartsPending(path[j], p)
    ensures ApprovalCovers(path, k, i, j)
  {
    ReapprovalsOfPrefix(path, j, k + 1, j);
    assert ApprovedAt(path[..j], p, k, i);
  }

  lemma DecidedStartIsCovered(path: seq<Entry>, p: Pending, k: nat, i: nat, h: nat, d: nat, j: nat)
    requires j < |path| && Backed(path[..j], p, k, i, h, d) && StartsPending(path[j], p) && !path[j].kind.PatchStarted?
    ensures DecisionCovers(path, k, i, h, d, j)
  {
    assert DecidedAt(path[..j], p, k, h, d);
    assert DecidedUnder(path, k, h, d);
    if h != i {
      var m :| h < m < j && ClearsApproval(path[..j][m]);
      assert ClearsApproval(path[m]);
    }
  }

  /** Authorisation: every start in an accepted path is covered by an approval, and
      a start of an action or a command also by an allow decision. */
  lemma Authorised(path: seq<Entry>, j: nat) returns (k: nat, i: nat, h: nat, d: nat)
    requires Accepted(path) && j < |path| && IsStart(path[j].kind)
    ensures ApprovalCovers(path, k, i, j)
    ensures !path[j].kind.PatchStarted? ==> DecisionCovers(path, k, i, h, d, j)
  {
    hide Step, Run, Effect, Backed, ApprovalCovers, DecisionCovers, StartsPending;
    var s, t := EffectAt(path, j);
    StartChecks(s, path[j], t);
    k, i, h, d := FindBacking(path[..j]);
    BackedStartIsCovered(path, s.pending.value, k, i, h, d, j);
    if !path[j].kind.PatchStarted? { DecidedStartIsCovered(path, s.pending.value, k, i, h, d, j); }
  }

  /** An approval given before a restart recovery or an interruption never starts
      anything after it. */
  lemma StaleApprovalNeverStarts(path: seq<Entry>, a: nat, r: nat, j: nat)
    requires Accepted(path) && a < r < j < |path|
    requires IsApproval(path[a].kind) && ClearsApproval(path[r]) && IsStart(path[j].kind)
    ensures ApprovalIdOf(path[j]) != ApprovalIdOf(path[a])
  {
    hide Step, Run;
    var _, i, _, _ := Authorised(path, j);
    assert r <= i;
    ApprovalIdsDistinct(path, a, i);
  }

  lemma {:induction false} ApprovalIdsCollected(path: seq<Entry>, a: nat)
    requires Run(path).Ok? && a < |path| && IsApproval(path[a].kind)
    ensures ApprovalIdOf(path[a]).Some? && ApprovalIdOf(path[a]).value in Run(path).value.approvalIds
  {
    hide Step, Run;
    var s, t := LastEffect(path);
    if a < |path| - 1 { ApprovalIdsCollected(path[..|path| - 1], a); }
  }

  /** An approval id is accepted once. */
  lemma ApprovalIdsDistinct(path: seq<Entry>, a: nat, b: nat)
    requires Run(path).Ok? && a < b < |path| && IsApproval(path[a].kind) && IsApproval(path[b].kind)
    ensures ApprovalIdOf(path[a]).Some? && ApprovalIdOf(path[b]).Some?
    ensures ApprovalIdOf(path[a]) != ApprovalIdOf(path[b])
  {
    hide Step, Run;
    var s, t := EffectAt(path, b);
    ApprovalIdsCollected(path[..b], a);
  }

  lemma {:induction false} DecisionIdsCollected(path: seq<Entry>, a: nat)
    requires Run(path).Ok? && a < |path| && path[a].kind.ActionDecided?
    ensures path[a].meta.decisionId.Some? && path[a].meta.decisionId.value in Run(path).value.decisionIds
  {
    hide Step, Run;
    var s, t := LastEffect(path);
    if a < |path| - 1 { DecisionIdsCollected(path[..|path| - 1], a); }
  }

  /** A decision id is accepted once. */
  lemma DecisionIdsDistinct(path: seq<Entry>, a: nat, b: nat)
    requires Run(path).Ok? && a < b < |path| && path[a].kind.ActionDecided? && path[b].kind.ActionDecided?
    ensures path[a].meta.decisionId.Some? && path[b].meta.decisionId.Some?
    ensures path[a].meta.decisionId != path[b].meta.decisionId
  {
    hide Step, Run;
    var s, t := EffectAt(path, b);
    DecisionIdsCollected(path[..b], a);
  }
}
