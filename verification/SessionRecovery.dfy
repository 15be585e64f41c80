/** The restart recovery service: what it appends, that it repairs a hidden started
    action, and that recovering twice is recovering once. */
module SessionRecovery {
  import opened Wrappers
  import opened Texts
  import opened SessionLedger
  import opened LedgerEffects
  import opened LedgerAuthority
  import opened ActivePath
  import opened RecoveryScan
  import opened SessionStore

  /** Where the runtime gets a new entry's id and time. */
  datatype Source = Source(id: string, now: int)

  function Interruption(source: Source, parent: Option<Option<string>>, actionId: Option<string>, rest: string): Input {
    Input(source.id, parent, SessionInterrupted,
          Fields(None, PlainInterruption, None, None, None, None, false, rest),
          NO_META.(actionId := actionId), source.now)
  }

  function Ending(source: Source, kind: EventType): Input {
    Input(source.id, None, kind,
          Fields(None, PlainInterruption, None, None, None, None, false, "Recovered terminal evidence after restart."),
          NO_META, source.now)
  }

  function Reapproval(source: Source, reason: Reason, pending: Option<Pending>): Input {
    var generation := if pending.Some? then pending.value.approvalGeneration + 1 else 1;
    Input(source.id, None, RecoveryRequired,
          Fields(None, reason, None, None, None, None, false, ""),
          NO_META.(approvalGeneration := Some(generation)), source.now)
  }

  /** The status after which nothing is left to recover. */
  predicate Settled(status: Status) { Terminal(status) || status.NeedsRecovery? || status.Interrupted? }

  const STOPPED := "Application stopped before the active operation settled."

  datatype RecoveryError = InvalidEventType | StoreFailed(error: StoreError)

  type Recovered = Result<Projection, RecoveryError>

  /** What to append for a path without an unmatched start: nothing, an entry, or
      (for a runtime status that names an inherited property) an invalid one. */
  function Remedy(p: Projection, source: Source): Result<Option<Input>, RecoveryError> {
    if Settled(p.status) then Ok(None)
    else match p.lastEntry.meta.runtimeStatus
      case DoneStatus => Ok(Some(Ending(source, SessionCompleted)))
      case FailedStatus => Ok(Some(Ending(source, SessionFailed)))
      case CancelledStatus => Ok(Some(Ending(source, SessionCancelled)))
      case LimitReachedStatus => Ok(Some(Ending(source, SessionLimitReached)))
      case InheritedName => Err(InvalidEventType)
      case ActiveOperation => Ok(Some(Interruption(source, None, None, STOPPED)))
      case WaitingForPatchApproval => Ok(Some(Reapproval(source, PatchReapproval, p.pending)))
      case WaitingForCommandApproval => Ok(Some(Reapproval(source, CommandReapproval, p.pending)))
      case IdleStatus => Ok(Some(Interruption(source, None, None, STOPPED)))
      case OtherStatus(_) => Ok(None)
      case NoStatus =>
        if p.pending.Some? && p.pending.value.kind.Patch? then Ok(Some(Reapproval(source, PatchReapproval, p.pending)))
        else if p.pending.Some? && p.pending.value.kind.Command? then
          Ok(Some(Reapproval(source, CommandReapproval, p.pending)))
        else Ok(Some(Interruption(source, None, None, STOPPED)))
  }

  function RepairInput(u: Unmatched, source: Source): Input {
    Interruption(source, if u.maskingParent.Some? then Some(u.maskingParent) else None, Some(u.actionId),
                 "unmatched_started_action_after_restart")
  }

  function LoadedPath(store: Store, sessionId: string): Result<seq<Entry>, StoreError> {
    if sessionId !in store.sessions then Err(SessionNotFound)
    else match PathTo(EntriesOf(store, sessionId), Some(store.sessions[sessionId].activeLeafId))
      case Err(error) => Err(PathFailed(error))
      case Ok(path) => Ok(path)
  }

  function CurrentState(store: Store, sessionId: string): Recovered {
    match LoadedPath(store, sessionId)
    case Err(error) => Err(StoreFailed(error))
    case Ok(path) =>
      match Projected(path)
      case Err(error) => Err(StoreFailed(LedgerRefused(error)))
      case Ok(p) => Ok(p)
  }

  function AppendThenProject(store: Store, sessionId: string, input: Input): (Store, Recovered) {
    var (next, result) := AppendedNow(store, sessionId, input);
    match result
    case Err(error) => (next, Err(StoreFailed(error)))
    case Ok(_) => (next, CurrentState(next, sessionId))
  }

  /** What recovery appends after reading a path: nothing, an entry, or an error. */
  function Choice(path: seq<Entry>, source: Source): Result<Option<Input>, RecoveryError> {
    match FirstUnmatched(path)
    case Some(u) =>
      if u.maskingParent.None? && u.alreadyInterrupted then Ok(None) else Ok(Some(RepairInput(u, source)))
    case None =>
      match Projected(path)
      case Err(error) => Err(StoreFailed(LedgerRefused(error)))
      case Ok(p) => Remedy(p, source)
  }

  /** Recovering one session of the store. */
  function RecoveredStore(store: Store, sessionId: string, source: Source): (Store, Recovered) {
    match LoadedPath(store, sessionId)
    case Err(error) => (store, Err(StoreFailed(error)))
    case Ok(path) =>
      match Choice(path, source)
      case Err(error) => (store, Err(error))
      case Ok(None) => (store, CurrentState(store, sessionId))
      case Ok(Some(input)) => AppendThenProject(store, sessionId, input)
  }

  class SessionRecoveryService {
    const runtime: SessionRuntime

    constructor (runtime: SessionRuntime)
      ensures this.runtime == runtime
    {
      this.runtime := runtime;
    }

    method LoadActivePath(sessionId: string) returns (result: Result<seq<Entry>, StoreError>)
      ensures result == LoadedPath(runtime.store.Contents(), sessionId)
    {
      var session := runtime.store.GetSession(sessionId);
      if session.None? {
        return Err(SessionNotFound);
      }
      var all := runtime.store.ListEntries(sessionId);
      var path := BuildActivePath(all, Some(session.value.activeLeafId));
      return if path.Err? then Err(PathFailed(path.error)) else Ok(path.value);
    }

    method ProjectCurrentState(sessionId: string) returns (result: Recovered)
      ensures result == CurrentState(runtime.store.Contents(), sessionId)
    {
      var path := LoadActivePath(sessionId);
      if path.Err? {
        return Err(StoreFailed(path.error));
      }
      var p := Project(path.value);
      return if p.Err? then Err(StoreFailed(LedgerRefused(p.error))) else Ok(p.value);
    }

    method AppendAndProject(sessionId: string, input: Input) returns (result: Recovered)
      modifies runtime.store
      ensures (runtime.store.Contents(), result) == AppendThenProject(old(runtime.store.Contents()), sessionId, input)
    {
      var appended := runtime.AppendEntry(sessionId, input);
      if appended.Err? {
        return Err(StoreFailed(appended.error));
      }
      result := ProjectCurrentState(sessionId);
    }

    method RecoverSession(sessionId: string, source: Source) returns (result: Recovered)
      modifies runtime.store
      ensures (runtime.store.Contents(), result) == RecoveredStore(old(runtime.store.Contents()), sessionId, source)
    {
      var path := LoadActivePath(sessionId);
      if path.Err? {
        return Err(StoreFailed(path.error));
      }
      var unmatched := FindUnmatchedStartedAction(path.value);
      if unmatched.Some? {
        if unmatched.value.maskingParent.None? && unmatched.value.alreadyInterrupted {
          result := ProjectCurrentState(sessionId);
        } else {
          result := AppendAndProject(sessionId, RepairInput(unmatched.value, source));
        }
        return;
      }
      var p := Project(path.value);
      if p.Err? {
        return Err(StoreFailed(LedgerRefused(p.error)));
      }
      var remedy := Remedy(p.value, source);
      if remedy.Err? {
        return Err(remedy.error);
      }
      if remedy.value.None? {
        result := ProjectCurrentState(sessionId);
      } else {
        result := AppendAndProject(sessionId, remedy.value.value);
      }
    }
  }

  // ---------- the store a recovery starts from ----------

  /** A stored session whose tree is whole; its active path need not project. */
  ghost predicate Stored(store: Store, id: string) {
    && id in store.sessions && id in store.entries && store.sessions[id].id == id
    && !Blank(id) && Tree(id, store.entries[id])
    && store.sessions[id].activeLeafId in Ids(store.entries[id])
  }

  ghost function PathOf(store: Store, id: string): seq<Entry>
    requires Stored(store, id)
  {
    var entries := store.entries[id];
    RootPath(entries, IndexOf(entries, store.sessions[id].activeLeafId))
  }

  lemma StoredPathLoads(store: Store, id: string)
    requires Stored(store, id)
    ensures LoadedPath(store, id) == Ok(PathOf(store, id))
    ensures PathOf(store, id) != [] && PathOf(store, id)[0].kind.SessionCreated?
    ensures PathOf(store, id)[|PathOf(store, id)| - 1].id == store.sessions[id].activeLeafId
  {
    var entries := store.entries[id];
    var i := IndexOf(entries, store.sessions[id].activeLeafId);
    PathIsRootPath(entries, i);
    RootPathShape(entries, i);
  }

  /** A successful commit ends the new active path with its entry, whichever leaf the
      session had when it was read. */
  lemma CommittedPath(store: Store, session: Session, input: Input) returns (path: seq<Entry>, e: Entry)
    requires Stored(store, session.id) && session.activeLeafId in Ids(store.entries[session.id])
    requires Committed(store, session, store.entries[session.id], input).1.Ok?
    ensures var id, next := session.id, Committed(store, session, store.entries[session.id], input).0;
            && Stored(next, id) && PathOf(next, id) == path + [e] && Accepted(path + [e])
            && next.entries[id] == store.entries[id] + [e]
    ensures e == NewEntry(session, store.entries[session.id], input) && e.parent.Some?
    ensures path != [] && path[0].kind.SessionCreated? && Run(path).Ok?
    ensures e.parent.value in Ids(store.entries[session.id])
    ensures path == RootPath(store.entries[session.id], IndexOf(store.entries[session.id], e.parent.value))
  {
    hide Run, Committed, RootPath, Tree, WellFormed;
    var all := store.entries[session.id];
    var m;
    e, m := CommittedEntry(store, session, input);
    path := FollowedPath(all, e, m);
  }

  /** The entry a commit stores, and the session it leaves. */
  lemma CommittedEntry(store: Store, session: Session, input: Input) returns (e: Entry, m: Mutation)
    requires Stored(store, session.id) && session.activeLeafId in Ids(store.entries[session.id])
    requires Committed(store, session, store.entries[session.id], input).1.Ok?
    ensures var id, next := session.id, Committed(store, session, store.entries[session.id], input).0;
            && Stored(next, id) && next.entries[id] == store.entries[id] + [e] && next.sessions[id].activeLeafId == e.id
    ensures e == NewEntry(session, store.entries[session.id], input) && e.id !in Ids(store.entries[session.id])
    ensures WellFormed(store.entries[session.id]) && Follows(store.entries[session.id], e, m)
  {
    hide Run, RootPath, CandidatePath, Projected;
    var id, all := session.id, store.entries[session.id];
    PreparedFollows(session, all, input);
    var (entry, mutation) := Prepared(session, all, input).value;
    e, m := entry, mutation;
    var next := Committed(store, session, all, input).0;
    FollowingKeepsSession(store.sessions[id], next.sessions[id], all, e, m);
  }

  /** The path of a new last entry is that of its parent, and the entry. */
  lemma FollowedPath(all: seq<Entry>, e: Entry, m: Mutation) returns (path: seq<Entry>)
    requires WellFormed(all) && Follows(all, e, m) && e.id !in Ids(all) && !Blank(e.id)
    ensures WellFormed(all + [e]) && e.id in Ids(all + [e])
    ensures RootPath(all + [e], IndexOf(all + [e], e.id)) == path + [e] && Accepted(path + [e])
    ensures path != [] && path[0].kind.SessionCreated? && Run(path).Ok?
    ensures path == RootPath(all, IndexOf(all, e.parent.value))
  {
    hide Run;
    var j := IndexOf(all, e.parent.value);
    path := RootPath(all, j);
    RootPathShape(all, j);
    WellFormedGrows(all, e);
    LookupIsEntry(all + [e], |all|);
    assert (path + [e])[..|path|] == path;
    PrefixAccepted(path + [e], |path|);
  }

  /** A successful append ends the new active path with its entry, after the active
      path or after the path to the parent it names. */
  lemma AppendedPath(store: Store, id: string, input: Input) returns (path: seq<Entry>, e: Entry)
    requires Stored(store, id) && AppendedNow(store, id, input).1.Ok?
    ensures var next := AppendedNow(store, id, input).0;
            Stored(next, id) && PathOf(next, id) == path + [e] && Accepted(path + [e])
    ensures e == NewEntry(store.sessions[id], store.entries[id], input)
    ensures AppendedNow(store, id, input).0.entries[id] == store.entries[id] + [e]
    ensures path != [] && path[0].kind.SessionCreated? && Run(path).Ok?
    ensures input.parent.None? ==> path == PathOf(store, id)
    ensures input.parent.Some? ==>
      && input.parent.value.Some? && input.parent.value.value in Ids(store.entries[id])
      && path == RootPath(store.entries[id], IndexOf(store.entries[id], input.parent.value.value))
  {
    hide Run, Committed, RootPath;
    path, e := CommittedPath(store, store.sessions[id], input);
  }

  // ---------- recovering twice ----------

  /** A path on which recovery has nothing left to append. */
  ghost predicate Stable(path: seq<Entry>) {
    && Accepted(path)
    && match FirstUnmatched(path)
       case Some(u) => u.maskingParent.None? && u.alreadyInterrupted
       case None => Remedy(Summary(path, Run(path).value), Source("", 0)) == Ok(None)
  }

  lemma StablePathIsKept(store: Store, id: string, source: Source)
    requires Stored(store, id) && Stable(PathOf(store, id))
    ensures RecoveredStore(store, id, source) == (store, CurrentState(store, id))
  {
    hide Run, Scan;
    StoredPathLoads(store, id);
  }

  /** An interruption, an end of the session, or a recovery that asks for an approval. */
  predicate IsRemedy(e: Entry) { e.kind.SessionInterrupted? || IsMaskingTerminal(e.kind) || IsReapproval(e) }

  lemma AppendedIsStable(path: seq<Entry>, e: Entry)
    requires Accepted(path + [e]) && Run(path).Ok? && IsRemedy(e)
    ensures Stable(path + [e])
  {
    hide Run, Step;
    assert (path + [e])[..|path|] == path;
    var s, t := LastEffect(path + [e]);
    TwoScansAgree(path);
    RemedyOfEnded(s, e, t);
    assert Scan(path + [e]) == ScanEntry(Scan(path), IdBefore(path + [e], |path|), e);
  }

  /** After an interruption, an end or a reapproval recovery the status is settled. */
  lemma RemedyOfEnded(s: State, e: Entry, t: State)
    requires Effect(s, e, t) && IsRemedy(e)
    ensures Settled(t.status) && (!e.kind.SessionInterrupted? ==> !StartedUnsettled(s.pending))
  {}

  /** What recovery asks the runtime to append. */
  predicate IsRemedyInput(input: Input) {
    && input.payload.Fields?
    && (input.kind.SessionInterrupted? || IsMaskingTerminal(input.kind)
        || (input.kind.RecoveryRequired? && !input.payload.reason.PlainInterruption?))
  }

  lemma RemedyKind(p: Projection, source: Source)
    requires Remedy(p, source).Ok? && Remedy(p, source).value.Some?
    ensures var input := Remedy(p, source).value.value;
            input.parent.None? && input.id == source.id && IsRemedyInput(input)
  {}

  lemma ChoiceKind(path: seq<Entry>, source: Source)
    requires Choice(path, source).Ok? && Choice(path, source).value.Some?
    ensures IsRemedyInput(Choice(path, source).value.value) && Choice(path, source).value.value.id == source.id
  {
    hide Scan, Run, Remedy;
    if FirstUnmatched(path).None? { RemedyKind(Projected(path).value, source); }
  }

  /** Each entry of the active path is stored, and what leads to it is the path to it. */
  lemma PathEntryIsStored(store: Store, id: string, k: nat)
    requires Stored(store, id) && k < |PathOf(store, id)|
    ensures var entries, e := store.entries[id], PathOf(store, id)[k];
            e.id in Ids(entries) && RootPath(entries, IndexOf(entries, e.id)) == PathOf(store, id)[..k + 1]
  {
    hide RootPath;
    var path, entries := PathOf(store, id), store.entries[id];
    var leaf := IndexOf(entries, store.sessions[id].activeLeafId);
    RootPathShape(entries, leaf);
    RootPathPrefix(entries, leaf, k);
    var j := path[k].sequence - 1;
    LookupIsEntry(entries, j);
    assert entries[j] in entries;
  }

  /** The path before a hidden start's first masking terminal, and its scan. */
  lemma HiddenPrefix(store: Store, id: string, u: Unmatched) returns (i: nat)
    requires Stored(store, id) && u in Scan(PathOf(store, id)) && u.maskingParent.Some?
    ensures 0 < i < |PathOf(store, id)| && IsMaskingTerminal(PathOf(store, id)[i].kind)
    ensures PathOf(store, id)[i - 1].id == u.maskingParent.value
    ensures u.maskingParent.value in Ids(store.entries[id])
    ensures RootPath(store.entries[id], IndexOf(store.entries[id], u.maskingParent.value)) == PathOf(store, id)[..i]
    ensures exists v <- Scan(PathOf(store, id)[..i]) :: v.actionId == u.actionId
  {
    hide Scan, PathOf, RootPath, Stored;
    var v: Unmatched;
    i, v := MaskingTerminalFound(PathOf(store, id), u);
    PathEntryIsStored(store, id, i - 1);
  }

  /** Recovering twice is recovering once: after a successful recovery a second one,
      whatever its new id and time, appends nothing and returns the same projection. */
  lemma RecoveringTwice(store: Store, id: string, first: Source, second: Source)
    requires Stored(store, id) && RecoveredStore(store, id, first).1.Ok?
    ensures RecoveredStore(RecoveredStore(store, id, first).0, id, second) == RecoveredStore(store, id, first)
  {
    hide Run, Scan, AppendedNow, Remedy;
    StoredPathLoads(store, id);
    var path := PathOf(store, id);
    var next := RecoveredStore(store, id, first).0;
    var choice := Choice(path, first).value;
    if choice.Some? {
      ChoiceKind(path, first);
      var prefix, e := AppendedPath(store, id, choice.value);
      AppendedIsStable(prefix, e);
      StablePathIsKept(next, id, second);
    } else {
      NothingChosenIsStable(path, first);
      StablePathIsKept(store, id, second);
    }
  }

  lemma NothingChosenIsStable(path: seq<Entry>, source: Source)
    requires Projected(path).Ok? && Choice(path, source) == Ok(None)
    ensures Stable(path)
  {
    hide Run, Scan;
  }

  // ---------- when recovery succeeds ----------

  lemma {:induction false} SeenAreIds(path: seq<Entry>)
    requires Run(path).Ok?
    ensures Run(path).value.seen == Ids(path)
    ensures Run(path).value.last == if path == [] then None else Some(path[|path| - 1].sequence)
  {
    if path == [] {
      return;
    }
    hide Run, Step, Moves;
    assert path == path[..|path| - 1] + [path[|path| - 1]];
    var s, t := LastEffect(path);
    SeenAreIds(path[..|path| - 1]);
  }

  /** The path an append starts from: the active path, or the one to the parent it names. */
  ghost predicate StartsFrom(store: Store, id: string, input: Input, path: seq<Entry>)
    requires Stored(store, id)
  {
    && (input.parent.None? ==> path == PathOf(store, id))
    && (input.parent.Some? ==>
          && input.parent.value.Some? && input.parent.value.value in Ids(store.entries[id])
          && path == RootPath(store.entries[id], IndexOf(store.entries[id], input.parent.value.value)))
  }

  /** The path to a stored entry loads, and starts with the creation. */
  lemma StoredLeafLoads(store: Store, id: string, leaf: string)
    requires Stored(store, id) && leaf in Ids(store.entries[id])
    ensures var all := store.entries[id];
            var path := RootPath(all, IndexOf(all, leaf));
            PathTo(all, Some(leaf)) == Ok(path) && path != [] && path[0].kind.SessionCreated?
  {
    var all := store.entries[id];
    PathIsRootPath(all, IndexOf(all, leaf));
    RootPathShape(all, IndexOf(all, leaf));
  }

  lemma NewEntryIsValid(store: Store, id: string, input: Input)
    requires Stored(store, id) && !Blank(input.id)
    ensures ValidEntry(NewEntry(store.sessions[id], store.entries[id], input))
  {
    var all := store.entries[id];
    assert all[|all| - 1].sequence == |all|;
  }

  lemma CandidateOfStored(store: Store, id: string, input: Input, path: seq<Entry>)
    requires Stored(store, id) && !Blank(input.id) && StartsFrom(store, id, input, path)
    ensures var e := NewEntry(store.sessions[id], store.entries[id], input);
            CandidatePath(store.sessions[id], store.entries[id], e) == Ok(path + [e])
    ensures path != [] && path[0].kind.SessionCreated?
  {
    hide PathTo, RootPath, Tree, Blank;
    StoredLeafLoads(store, id, store.sessions[id].activeLeafId);
    NewEntryIsValid(store, id, input);
    if input.parent.Some? { StoredLeafLoads(store, id, input.parent.value.value); }
  }

  /** Appending a new id after a stored parent succeeds exactly when the projector
      accepts the entry after the parent's path. */
  lemma AppendSucceedsExactly(store: Store, id: string, input: Input, path: seq<Entry>)
    requires Stored(store, id) && !Blank(input.id) && input.id !in Ids(store.entries[id])
    requires StartsFrom(store, id, input, path) && Run(path).Ok?
    ensures AppendedNow(store, id, input).1.Ok?
       <==> Step(Run(path).value, NewEntry(store.sessions[id], store.entries[id], input)).Ok?
  {
    hide Step, CandidatePath;
    var e := NewEntry(store.sessions[id], store.entries[id], input);
    CandidateOfStored(store, id, input, path);
    assert (path + [e])[..|path|] == path;
    assert forall x <- store.entries[id] :: x.id in Ids(store.entries[id]);
  }

  /** The new entry's id is new on the path, and its sequence is later. */
  ghost predicate Later(s: State, e: Entry) {
    s.last.Some? && s.last.value < e.sequence && e.id !in s.seen
  }

  lemma NewEntryIsLater(store: Store, id: string, input: Input, path: seq<Entry>)
    requires Stored(store, id) && input.id !in Ids(store.entries[id])
    requires StartsFrom(store, id, input, path) && Run(path).Ok?
    ensures Later(Run(path).value, NewEntry(store.sessions[id], store.entries[id], input))
  {
    hide Run;
    var all := store.entries[id];
    var i := IndexOf(all, if input.parent.None? then store.sessions[id].activeLeafId else input.parent.value.value);
    RootPathShape(all, i);
    SeenAreIds(path);
    assert forall x <- path :: x in all;
    assert all[|all| - 1].sequence == |all|;
  }

  /** A session that has not ended can always be interrupted. */
  lemma InterruptionAccepted(s: State, e: Entry)
    requires Later(s, e) && !Terminal(s.status) && e.kind.SessionInterrupted?
    ensures Step(s, e).Ok?
  {}

  lemma InterruptionKeepsStarted(s: State, e: Entry, t: State)
    requires Effect(s, e, t) && e.kind.SessionInterrupted? && StartedUnsettled(s.pending)
    ensures t.status.Interrupted? && StartedUnsettled(t.pending)
    ensures t.pending.value.actionId == s.pending.value.actionId
  {}

  /** What the projection of a path with this scan must show. */
  lemma ScanShowsStarted(path: seq<Entry>, actionId: string)
    requires Run(path).Ok? && exists v <- Scan(path) :: v.actionId == actionId
    ensures StartedUnsettled(Run(path).value.pending) && Run(path).value.pending.value.actionId == actionId
    ensures !Terminal(Run(path).value.status)
  {
    hide Run, Scan;
    TwoScansAgree(path);
    RunIsSound(path);
  }

  /** Recovery repairs a hidden start: when a stored path ends a session over a started
      action and what precedes that end projects, recovery forks before it, keeps every
      stored entry, and leaves the session interrupted with that action still started. */
  lemma RepairsHiddenStart(store: Store, id: string, source: Source, u: Unmatched)
    requires Stored(store, id) && !Blank(source.id) && source.id !in Ids(store.entries[id])
    requires FirstUnmatched(PathOf(store, id)) == Some(u) && u.maskingParent.Some?
    requires u.maskingParent.value in Ids(store.entries[id]) ==>
      Run(RootPath(store.entries[id], IndexOf(store.entries[id], u.maskingParent.value))).Ok?
    ensures var (next, result) := RecoveredStore(store, id, source);
      && result.Ok? && result.value.status.Interrupted?
      && StartedUnsettled(result.value.pending) && result.value.pending.value.actionId == u.actionId
      && result.value.lastEntry.kind.SessionInterrupted? && result.value.lastEntry.parent == u.maskingParent
      && id in next.entries && next.entries[id] == store.entries[id] + [result.value.lastEntry]
  {
    hide Run, Scan, AppendedNow, RootPath;
    StoredPathLoads(store, id);
    var path, last := ForkedPath(store, id, source, u);
    var next := AppendedNow(store, id, RepairInput(u, source)).0;
    StoredPathLoads(next, id);
    assert CurrentState(next, id) == Ok(Summary(path + [last], Run(path + [last]).value));
  }

  /** The path a repair ends up with. */
  lemma ForkedPath(store: Store, id: string, source: Source, u: Unmatched) returns (path: seq<Entry>, last: Entry)
    requires Stored(store, id) && !Blank(source.id) && source.id !in Ids(store.entries[id])
    requires u in Scan(PathOf(store, id)) && u.maskingParent.Some?
    requires u.maskingParent.value in Ids(store.entries[id]) ==>
      Run(RootPath(store.entries[id], IndexOf(store.entries[id], u.maskingParent.value))).Ok?
    ensures AppendedNow(store, id, RepairInput(u, source)).1.Ok?
    ensures var next := AppendedNow(store, id, RepairInput(u, source)).0;
            Stored(next, id) && PathOf(next, id) == path + [last] && Accepted(path + [last])
            && next.entries[id] == store.entries[id] + [last]
    ensures last.kind.SessionInterrupted? && last.parent == u.maskingParent
    ensures var t := Run(path + [last]).value;
            t.status.Interrupted? && StartedUnsettled(t.pending) && t.pending.value.actionId == u.actionId
  {
    hide Run, Scan, Step, Effect, RootPath, AppendedNow;
    var i := HiddenPrefix(store, id, u);
    path := PathOf(store, id)[..i];
    var input := RepairInput(u, source);
    var e := NewEntry(store.sessions[id], store.entries[id], input);
    ScanShowsStarted(path, u.actionId);
    NewEntryIsLater(store, id, input, path);
    InterruptionAccepted(Run(path).value, e);
    AppendSucceedsExactly(store, id, input, path);
    var prefix;
    prefix, last := AppendedPath(store, id, input);
    assert (path + [last])[..|path|] == path;
    var s, t := LastEffect(path + [last]);
    InterruptionKeepsStarted(s, last, t);
  }

  /** The runtime statuses for which recovery itself is refused: a reapproval wait that
      does not match the pending kind, and a name inherited by every object. */
  predicate Obstructed(p: Projection) {
    && !Settled(p.status)
    && match p.lastEntry.meta.runtimeStatus
       case InheritedName => true
       case WaitingForPatchApproval => p.pending.Some? && !p.pending.value.kind.Patch?
       case WaitingForCommandApproval => p.pending.Some? && !p.pending.value.kind.Command?
       case _ => false
  }

  /** A recovery that asks for an approval is accepted unless another kind of action waits. */
  lemma ReapprovalAccepted(s: State, e: Entry, reason: Reason)
    requires Sound(s) && !StartedUnsettled(s.pending) && Later(s, e) && !Terminal(s.status)
    requires e.kind.RecoveryRequired? && ReasonOf(e) == reason && !reason.PlainInterruption?
    requires GenerationOf(e) == Some(if s.pending.Some? then s.pending.value.approvalGeneration + 1 else 1)
    ensures Step(s, e).Ok? <==>
      (s.pending.Some? ==> s.pending.value.kind == if reason.PatchReapproval? then Patch else Command)
  {}

  lemma EndAccepted(s: State, e: Entry)
    requires !StartedUnsettled(s.pending) && Later(s, e) && !Terminal(s.status) && IsMaskingTerminal(e.kind)
    ensures Step(s, e).Ok?
  {}

  /** Which remedy obstructs itself. */
  lemma RemedyChoices(p: Projection, source: Source)
    requires Remedy(p, source).Ok? && Remedy(p, source).value.Some?
    requires p.pending.Some? ==> p.pending.value.approvalGeneration >= 0
    ensures var input := Remedy(p, source).value.value;
      && !Settled(p.status)
      && (!input.kind.RecoveryRequired? ==> !Obstructed(p))
      && (input.kind.RecoveryRequired? ==>
            && input == Reapproval(source, input.payload.reason, p.pending)
            && (Obstructed(p) <==> p.pending.Some? && p.pending.value.kind
                                   != if input.payload.reason.PatchReapproval? then Patch else Command))
  {}

  lemma RemedyAccepted(s: State, p: Projection, source: Source, e: Entry)
    requires Sound(s) && !StartedUnsettled(s.pending) && Later(s, e)
    requires p.status == s.status && p.pending == s.pending
    requires Remedy(p, source).Ok? && Remedy(p, source).value.Some?
    requires var input := Remedy(p, source).value.value;
             e.kind == input.kind && e.payload == input.payload && e.meta == input.meta
    ensures Step(s, e).Ok? <==> !Obstructed(p)
  {
    hide Remedy, Obstructed, Step;
    RemedyKind(p, source);
    RemedyChoices(p, source);
    if e.kind.RecoveryRequired? {
      ReapprovalAccepted(s, e, e.payload.reason);
    } else if e.kind.SessionInterrupted? {
      InterruptionAccepted(s, e);
    } else {
      EndAccepted(s, e);
    }
  }

  /** On a path that projects, recovery with a new entry id succeeds exactly when a
      started action is unmatched or the last runtime status does not obstruct it. */
  lemma RecoverySucceedsExactly(store: Store, id: string, source: Source)
    requires Stored(store, id) && !Blank(source.id) && source.id !in Ids(store.entries[id])
    requires Accepted(PathOf(store, id))
    ensures RecoveredStore(store, id, source).1.Ok?
       <==> StartedUnsettled(Projected(PathOf(store, id)).value.pending)
            || !Obstructed(Projected(PathOf(store, id)).value)
  {
    hide Run, Scan, Step, AppendedNow;
    StoredPathLoads(store, id);
    var path := PathOf(store, id);
    var s, p := Run(path).value, Projected(path).value;
    TwoScansAgree(path);
    RunIsSound(path);
    if StartedUnsettled(s.pending) {
      var u := FirstUnmatched(path).value;
      NewEntryIsLater(store, id, RepairInput(u, source), path);
      InterruptionAccepted(s, NewEntry(store.sessions[id], store.entries[id], RepairInput(u, source)));
      RecoveredBy(store, id, RepairInput(u, source));
    } else if Remedy(p, source).Ok? && Remedy(p, source).value.Some? {
      var input := Remedy(p, source).value.value;
      RemedyKind(p, source);
      NewEntryIsLater(store, id, input, path);
      RemedyAccepted(s, p, source, NewEntry(store.sessions[id], store.entries[id], input));
      RecoveredBy(store, id, input);
    }
  }

  /** Appending to the active path and projecting succeed together. */
  lemma RecoveredBy(store: Store, id: string, input: Input)
    requires Stored(store, id) && !Blank(input.id) && input.id !in Ids(store.entries[id])
    requires input.parent.None? && Run(PathOf(store, id)).Ok?
    ensures AppendThenProject(store, id, input).1.Ok?
       <==> Step(Run(PathOf(store, id)).value, NewEntry(store.sessions[id], store.entries[id], input)).Ok?
  {
    hide Run, Step, AppendedNow;
    AppendSucceedsExactly(store, id, input, PathOf(store, id));
    if AppendedNow(store, id, input).1.Ok? {
      var _, _ := AppendedPath(store, id, input);
      StoredPathLoads(AppendedNow(store, id, input).0, id);
    }
  }
}
