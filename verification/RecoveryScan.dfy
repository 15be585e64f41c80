/** The recovery service's own scan of a path for a started action without a
    settlement, and its agreement with the projector. */
module RecoveryScan {
  import opened Wrappers
  import opened SessionLedger
  import opened LedgerEffects

  datatype Unmatched = Unmatched(actionId: string, maskingParent: Option<string>, alreadyInterrupted: bool)

  /** Whether the entry names an action with a non-empty id. */
  predicate HasAction(e: Entry) { ActionIdOf(e).Some? && ActionIdOf(e).value != "" }

  /** A map in insertion order: a known key keeps its place and takes the new value. */
  function Put(started: seq<Unmatched>, u: Unmatched): seq<Unmatched> {
    if started == [] then [u]
    else if started[0].actionId == u.actionId then [u] + started[1..]
    else [started[0]] + Put(started[1..], u)
  }

  function Drop(started: seq<Unmatched>, actionId: string): seq<Unmatched> {
    if started == [] then []
    else if started[0].actionId == actionId then started[1..]
    else [started[0]] + Drop(started[1..], actionId)
  }

  function MarkInterrupted(started: seq<Unmatched>): seq<Unmatched> {
    seq(|started|, i requires 0 <= i < |started| => started[i].(alreadyInterrupted := true))
  }

  /** Keeps the parent of the first masking terminal. */
  function MarkMasked(started: seq<Unmatched>, parent: Option<string>): seq<Unmatched> {
    seq(|started|, i requires 0 <= i < |started| =>
      if started[i].maskingParent.Some? then started[i] else started[i].(maskingParent := parent))
  }

  function ScanEntry(started: seq<Unmatched>, previous: Option<string>, e: Entry): seq<Unmatched> {
    if IsStart(e.kind) && HasAction(e) then Put(started, Unmatched(ActionIdOf(e).value, None, false))
    else if IsSettlement(e.kind) && HasAction(e) then Drop(started, ActionIdOf(e).value)
    else if e.kind.SessionInterrupted? then MarkInterrupted(started)
    else if IsMaskingTerminal(e.kind) then MarkMasked(started, previous)
    else started
  }

  /** The id of the entry before index n, if there is one. */
  function IdBefore(path: seq<Entry>, n: nat): Option<string>
    requires n <= |path|
  {
    if n == 0 then None else Some(path[n - 1].id)
  }

  function Scan(path: seq<Entry>): seq<Unmatched> {
    if path == [] then []
    else
      var n := |path| - 1;
      ScanEntry(Scan(path[..n]), IdBefore(path, n), path[n])
  }

  function FirstUnmatched(path: seq<Entry>): Option<Unmatched> {
    if Scan(path) == [] then None else Some(Scan(path)[0])
  }

  method FindUnmatchedStartedAction(path: seq<Entry>) returns (found: Option<Unmatched>)
    ensures found == FirstUnmatched(path)
  {
    var started: seq<Unmatched> := [];
    for index := 0 to |path|
      invariant started == Scan(path[..index])
    {
      assert path[..index + 1][..index] == path[..index];
      started := ScanEntry(started, IdBefore(path, index), path[index]);
    }
    assert path[..|path|] == path;
    return if started == [] then None else Some(started[0]);
  }

  // ---------- agreement with the projector ----------

  /** A SESSION_INTERRUPTED entry follows the latest start. */
  ghost predicate InterruptedSinceStart(path: seq<Entry>) {
    exists m :: 0 <= m < |path| && path[m].kind.SessionInterrupted?
                && forall j :: m < j < |path| ==> !IsStart(path[j].kind)
  }

  /** The scan a path with this pending record must have. */
  ghost function Expected(path: seq<Entry>, pending: Option<Pending>): seq<Unmatched> {
    if StartedUnsettled(pending)
    then [Unmatched(pending.value.actionId, None, InterruptedSinceStart(path))]
    else []
  }

  lemma {:induction false} InterruptedStep(path: seq<Entry>)
    requires path != []
    ensures var n := |path| - 1;
            InterruptedSinceStart(path) <==>
              !IsStart(path[n].kind)
              && (path[n].kind.SessionInterrupted? || InterruptedSinceStart(path[..n]))
  {
    var n := |path| - 1;
    if path[n].kind.SessionInterrupted? {
      assert InterruptedSinceStart(path);
    } else if InterruptedSinceStart(path) {
      var m :| 0 <= m < |path| && path[m].kind.SessionInterrupted?
               && forall j :: m < j < |path| ==> !IsStart(path[j].kind);
      assert path[..n][m].kind.SessionInterrupted?;
    } else if InterruptedSinceStart(path[..n]) {
      var m :| 0 <= m < n && path[..n][m].kind.SessionInterrupted?
               && forall j :: m < j < n ==> !IsStart(path[..n][j].kind);
      if !IsStart(path[n].kind) {
        assert path[m].kind.SessionInterrupted?;
        assert forall j :: m < j < |path| ==> !IsStart(path[j].kind) by {
          forall j | m < j < n ensures !IsStart(path[j].kind) { assert path[..n][j] == path[j]; }
        }
      }
    }
  }

  lemma {:induction false} ScanStepAgrees(s: State, path: seq<Entry>, t: State)
    requires path != [] && StartedMoves(s, path[|path| - 1], t)
    requires Scan(path[..|path| - 1]) == Expected(path[..|path| - 1], s.pending)
    ensures Scan(path) == Expected(path, t.pending)
  {
    var n := |path| - 1;
    var before := Scan(path[..n]);
    InterruptedStep(path);
    if IsStart(path[n].kind) {
      assert before == [];
    } else if IsSettlement(path[n].kind) {
      assert |before| == 1 && before[0].actionId == ActionIdOf(path[n]).value;
    } else if StartedUnsettled(s.pending) {
      assert |before| == 1 && StartedUnsettled(t.pending);
    }
  }

  /** Two scans agree: on every path the projector's loop accepts, the recovery scan
      finds an action exactly when the pending one is started, names that one, never
      reports a masking terminal, and knows whether SESSION_INTERRUPTED followed. */
  lemma {:induction false} TwoScansAgree(path: seq<Entry>)
    requires Run(path).Ok?
    ensures Scan(path) == Expected(path, Run(path).value.pending)
  {
    if path == [] {
      return;
    }
    hide Step, Run, Effect;
    var s, t := LastEffect(path);
    TwoScansAgree(path[..|path| - 1]);
    RunIsSound(path[..|path| - 1]);
    EffectMovesStarted(s, path[|path| - 1], t);
    ScanStepAgrees(s, path, t);
  }

  // ---------- a masking terminal on a stored path ----------

  lemma {:induction false} PutMembers(started: seq<Unmatched>, u: Unmatched)
    ensures forall v <- Put(started, u) :: v == u || v in started
  {
    if started != [] && started[0].actionId != u.actionId { PutMembers(started[1..], u); }
  }

  lemma {:induction false} DropMembers(started: seq<Unmatched>, actionId: string)
    ensures forall v <- Drop(started, actionId) :: v in started
  {
    if started != [] && started[0].actionId != actionId { DropMembers(started[1..], actionId); }
  }

  /** A member of a scan is new, or comes from the scan before. */
  lemma ScanMember(path: seq<Entry>, u: Unmatched) returns (v: Unmatched)
    requires path != [] && u in Scan(path) && u.maskingParent.Some?
    ensures v in Scan(path[..|path| - 1]) && v.actionId == u.actionId
    ensures v.maskingParent == u.maskingParent
            || (v.maskingParent.None? && IsMaskingTerminal(path[|path| - 1].kind)
                && u.maskingParent == IdBefore(path, |path| - 1))
  {
    var n := |path| - 1;
    var before := Scan(path[..n]);
    PutMembers(before, Unmatched(if ActionIdOf(path[n]).Some? then ActionIdOf(path[n]).value else "", None, false));
    DropMembers(before, if ActionIdOf(path[n]).Some? then ActionIdOf(path[n]).value else "");
    if path[n].kind.SessionInterrupted? || IsMaskingTerminal(path[n].kind) {
      var i :| 0 <= i < |Scan(path)| && Scan(path)[i] == u;
      v := before[i];
    } else {
      v := u;
    }
  }

  /** A reported masking terminal is on the path; its parent is reported, and the scan
      of what precedes it still holds the action. */
  lemma {:induction false} MaskingTerminalFound(path: seq<Entry>, u: Unmatched) returns (i: nat, v: Unmatched)
    requires u in Scan(path) && u.maskingParent.Some?
    ensures 0 < i < |path| && IsMaskingTerminal(path[i].kind) && path[i - 1].id == u.maskingParent.value
    ensures v in Scan(path[..i]) && v.actionId == u.actionId && v.maskingParent.None?
  {
    var n := |path| - 1;
    v := ScanMember(path, u);
    if v.maskingParent.None? {
      i := n;
    } else {
      i, v := MaskingTerminalFound(path[..n], v);
      assert path[..n][..i] == path[..i];
    }
  }
}
