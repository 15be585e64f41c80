/** Recoveries that overlap: exactly when a recovery begins an append, exactly when its
    append is stored, and what that says of two recoveries that decided on one path. */
module OverlappingRecoveries {
  import opened Wrappers
  import opened Texts
  import opened SessionLedger
  import opened LedgerEffects
  import opened ActivePath
  import opened RecoveryScan
  import opened SessionStore
  import opened SessionRecovery
  import opened RecoverySchedules

  // ---------- when an append is stored ----------

  /** The entry an append goes after: the leaf of the session it read, or the named parent. */
  function ParentOf(session: Session, input: Input): Option<string> {
    if input.parent.None? then Some(session.activeLeafId) else input.parent.value
  }

  /** The entry is accepted after the path to its parent. */
  ghost predicate Extends(session: Session, all: seq<Entry>, input: Input)
    requires WellFormed(all)
  {
    && ParentOf(session, input).Some? && ParentOf(session, input).value in Ids(all)
    && Run(RootPath(all, IndexOf(all, ParentOf(session, input).value)) + [NewEntry(session, all, input)]).Ok?
  }

  lemma StoredPrefix(store: Store, id: string, all: seq<Entry>)
    requires Stored(store, id) && all <= store.entries[id] && all != []
    ensures Tree(id, all) && WellFormed(all) && all[|all| - 1].sequence == |all|
  {
    PrefixIsTree(id, all, store.entries[id]);
  }

  lemma CandidateExactly(session: Session, all: seq<Entry>, input: Input)
    requires Tree(session.id, all) && !Blank(session.id) && session.activeLeafId in Ids(all) && !Blank(input.id)
    ensures var e, parent := NewEntry(session, all, input), ParentOf(session, input);
      CandidatePath(session, all, e) == if parent.Some? && parent.value in Ids(all)
                                        then Ok(RootPath(all, IndexOf(all, parent.value)) + [e]) else Err(ParentUnknown)
  {
    hide PathTo, RootPath;
    var parent := ParentOf(session, input);
    PathIsRootPath(all, IndexOf(all, session.activeLeafId));
    if parent.Some? && parent.value in Ids(all) { PathIsRootPath(all, IndexOf(all, parent.value)); }
    assert all[|all| - 1].sequence == |all|;
  }

  lemma PreparedExactly(session: Session, all: seq<Entry>, input: Input)
    requires Tree(session.id, all) && !Blank(session.id) && session.activeLeafId in Ids(all) && !Blank(input.id)
    ensures Prepared(session, all, input).Ok? <==> Extends(session, all, input)
    ensures Prepared(session, all, input).Ok? ==> Prepared(session, all, input).value.0 == NewEntry(session, all, input)
  {
    hide Run, CandidatePath;
    CandidateExactly(session, all, input);
    var parent := ParentOf(session, input);
    if parent.Some? && parent.value in Ids(all) { RootPathShape(all, IndexOf(all, parent.value)); }
  }

  /** An id that is not blank and is not used among the entries. */
  ghost predicate NewIdIn(entries: seq<Entry>, id: string) { !Blank(id) && id !in Ids(entries) }

  /** What an append has computed is stored exactly when its id is new, nothing was stored
      since it read the entries, its parent is one of them, and the ledger goes on with its
      entry after it. */
  lemma CommitsExactly(store: Store, session: Session, all: seq<Entry>, input: Input)
    requires Stored(store, session.id) && all <= store.entries[session.id] && all != []
    requires session.activeLeafId in Ids(all)
    ensures WellFormed(all)
    ensures Committed(store, session, all, input).1.Ok? <==>
      NewIdIn(store.entries[session.id], input.id) && all == store.entries[session.id] && Extends(session, all, input)
  {
    hide Run, Prepared, RootPath, Blank;
    var id, stored := session.id, store.entries[session.id];
    StoredPrefix(store, id, all);
    StoredPrefix(store, id, stored);
    if Prepared(session, all, input).Ok? {
      PreparedFollows(session, all, input);
      PreparedIsNew(session, all, input);
      if NewIdIn(stored, input.id) { AppendedExactly(store, session, all, input); }
    }
    if !Blank(input.id) { PreparedExactly(session, all, input); }
    if input.id in Ids(stored) { assert Holds(stored, input.id); }
  }

  lemma PreparedIsNew(session: Session, all: seq<Entry>, input: Input)
    requires Prepared(session, all, input).Ok?
    ensures !Blank(input.id) && Prepared(session, all, input).value.0 == NewEntry(session, all, input)
  {
    hide Projected;
  }

  lemma AppendedExactly(store: Store, session: Session, all: seq<Entry>, input: Input)
    requires Stored(store, session.id) && all <= store.entries[session.id] && Tree(session.id, all)
    requires input.id !in Ids(store.entries[session.id]) && Prepared(session, all, input).Ok?
    requires var (e, m) := Prepared(session, all, input).value; e == NewEntry(session, all, input) && Follows(all, e, m)
    ensures var (e, m) := Prepared(session, all, input).value;
            Appended(store, e, m).Ok? <==> all == store.entries[session.id]
  {
    hide Run, Prepared, RootPath, Blank;
    var stored := store.entries[session.id];
    var (e, m) := Prepared(session, all, input).value;
    assert stored[|stored| - 1].sequence == |stored|;
    assert !Holds(stored, e.id) by { assert forall x <- stored :: x.id in Ids(stored); }
    assert Holds(stored, e.parent.value) by {
      var x :| x in all && x.id == e.parent.value;
      assert x in stored;
    }
    if |all| == |stored| { assert all == stored; }
  }

  // ---------- when a remedy is accepted ----------

  /** The state takes a remedy: it has not ended; an end needs that nothing is started; a
      recovery that asks for an approval needs that nothing is pending, or an action of its
      kind that is not started, one generation behind. */
  predicate Takes(s: State, input: Input) {
    && !Terminal(s.status)
    && (IsMaskingTerminal(input.kind) ==> !StartedUnsettled(s.pending))
    && (input.kind.RecoveryRequired? && s.pending.Some? ==>
          && input.payload.Fields? && !s.pending.value.started
          && s.pending.value.kind == (if input.payload.reason.PatchReapproval? then Patch else Command)
          && input.meta.approvalGeneration == Some(s.pending.value.approvalGeneration + 1))
  }

  lemma TakesExactly(s: State, input: Input, e: Entry)
    requires Sound(s) && Later(s, e) && IsRemedyInput(input)
    requires e.kind == input.kind && e.payload == input.payload && e.meta == input.meta
    ensures Step(s, e).Ok? <==> Takes(s, input)
  {}

  /** The remedies chosen on one path differ in their ids and times only. */
  lemma SameRemedy(path: seq<Entry>, first: Source, second: Source, input: Input, other: Input)
    requires ChosenOn(path, first, input) && ChosenOn(path, second, other)
    ensures other == input.(id := second.id, createdAt := second.now) && input.id == first.id
  {
    hide Run, Scan;
  }

  /** On a path that projects no start is hidden, so that no remedy names its parent. */
  lemma RemedyNamesNoParent(path: seq<Entry>, source: Source, input: Input)
    requires Run(path).Ok? && ChosenOn(path, source, input)
    ensures input.parent.None?
  {
    hide Run, Scan;
    TwoScansAgree(path);
  }

  /** After a remedy was taken, the same remedy is taken again exactly when it interrupts, or
      asks for an approval while nothing is pending. */
  lemma TakesAgainExactly(s: State, input: Input, e: Entry, t: State, other: Input)
    requires Sound(s) && Effect(s, e, t) && IsRemedyInput(input) && Takes(s, input)
    requires e.kind == input.kind && e.payload == input.payload && e.meta == input.meta
    requires other.kind == input.kind && other.payload == input.payload && other.meta == input.meta
    ensures Takes(t, other) <==> input.kind.SessionInterrupted? || (input.kind.RecoveryRequired? && s.pending.None?)
  {}

  // ---------- when a recovery begins an append ----------

  /** Something is left to recover that recovery can put right: a started action on which no
      interruption followed; or, with nothing started, an open session whose last runtime
      status is absent or one of those that recovery knows. A name that every object inherits
      is not one: where it is looked up, no type of an entry is found. */
  ghost predicate LeftOpen(path: seq<Entry>)
    requires path != [] && Run(path).Ok?
  {
    var s, runtimeStatus := Run(path).value, path[|path| - 1].meta.runtimeStatus;
    if StartedUnsettled(s.pending) then !InterruptedSinceStart(path)
    else !Settled(s.status) && !runtimeStatus.InheritedName? && !runtimeStatus.OtherStatus?
  }

  lemma ChoosesExactly(path: seq<Entry>, source: Source)
    requires Accepted(path)
    ensures Choice(path, source).Ok? && Choice(path, source).value.Some? <==> LeftOpen(path)
  {
    hide Run, Scan;
    TwoScansAgree(path);
  }

  // ---------- what overlapping recoveries have read ----------

  lemma {:induction false} RootPathOfPrefix(all: seq<Entry>, stored: seq<Entry>, i: nat)
    requires all <= stored && WellFormed(all) && WellFormed(stored) && i < |all|
    ensures RootPath(all, i) == RootPath(stored, i) && IndexOf(stored, all[i].id) == IndexOf(all, all[i].id) == i
    decreases i
  {
    LookupIsEntry(all, i);
    LookupIsEntry(stored, i);
    if i > 0 {
      assert HasEarlierParent(all, i);
      var j := IndexOf(all, all[i].parent.value);
      RootPathOfPrefix(all, stored, j);
    }
  }

  /** The leaf of every session is its last entry. */
  ghost predicate LeavesAreLast(store: Store) {
    forall id <- store.sessions ::
      && !Blank(id) && id in store.entries && store.entries[id] != []
      && store.sessions[id].activeLeafId == store.entries[id][|store.entries[id]| - 1].id
  }

  ghost function PathIn(entries: seq<Entry>, id: string): seq<Entry>
    requires WellFormed(entries) && id in Ids(entries)
  {
    RootPath(entries, IndexOf(entries, id))
  }

  /** A session that was read at some time: the path to its leaf is stored and projects. */
  ghost predicate Snapshot(store: Store, session: Session) {
    && Stored(store, session.id) && session.activeLeafId in Ids(store.entries[session.id])
    && Accepted(PathIn(store.entries[session.id], session.activeLeafId))
  }

  /** A session that was read after a path of it had been. */
  ghost predicate Since(store: Store, session: Session, path: seq<Entry>) {
    && Snapshot(store, session) && Accepted(path)
    && var entries, last := store.entries[session.id], path[|path| - 1].id;
    && last in Ids(entries) && PathIn(entries, last) == path
    && IndexOf(entries, last) <= IndexOf(entries, session.activeLeafId)
  }

  ghost predicate ReadBy(store: Store, session: Session, all: seq<Entry>) {
    Snapshot(store, session) && all <= store.entries[session.id] && all != [] && session.activeLeafId in Ids(all)
  }

  ghost predicate AppendsSince(store: Store, call: Call, path: seq<Entry>) {
    match call
    case ReadSession(_, session) => Since(store, session, path)
    case ReadEntries(_, session, all) => Since(store, session, path) && ReadBy(store, session, all)
    case Finished(_) => true
  }

  ghost predicate RecoverySound(system: System, r: Recovery) {
    match r
    case Checked(_, _) => true
    case Loading(_, session) => Snapshot(system.store, session)
    case Loaded(_, session, all) => ReadBy(system.store, session, all)
    case Appending(call, _, path) => call in system.calls && AppendsSince(system.store, system.calls[call], path)
    case Over => true
  }

  ghost predicate ScheduleSound(s: Schedule) {
    && SystemSound(s.system) && LeavesAreLast(s.system.store)
    && forall r <- s.recoveries :: RecoverySound(s.system, s.recoveries[r])
  }

  lemma CurrentIsStored(store: Store, id: string)
    requires StoreSound(store) && LeavesAreLast(store) && id in store.sessions
    ensures Stored(store, id) && Accepted(PathOf(store, id))
  {
    hide Run, RootPath;
    assert SessionSound(id, store.sessions[id], store.entries[id]);
  }

  lemma CurrentIsSnapshot(store: Store, id: string)
    requires StoreSound(store) && LeavesAreLast(store) && id in store.sessions
    ensures Snapshot(store, store.sessions[id]) && store.sessions[id].id == id
    ensures IndexOf(store.entries[id], store.sessions[id].activeLeafId) == |store.entries[id]| - 1
    ensures PathOf(store, id) == PathIn(store.entries[id], store.sessions[id].activeLeafId)
  {
    hide Run, RootPath, StoreSound, SessionSound;
    CurrentIsStored(store, id);
    LookupIsEntry(store.entries[id], |store.entries[id]| - 1);
  }

  lemma PathInGrows(before: seq<Entry>, after: seq<Entry>, id: string)
    requires before <= after && WellFormed(before) && WellFormed(after) && id in Ids(before)
    ensures id in Ids(after) && PathIn(after, id) == PathIn(before, id) && IndexOf(after, id) == IndexOf(before, id)
  {
    hide RootPath, WellFormed;
    var i := IndexOf(before, id);
    RootPathOfPrefix(before, after, i);
    assert after[i] in after;
  }

  lemma SnapshotGrows(before: Store, after: Store, session: Session)
    requires Snapshot(before, session) && Grows(before, after) && StoreSound(after) && LeavesAreLast(after)
    ensures Snapshot(after, session)
  {
    hide Run, RootPath, WellFormed, IndexOf;
    var id := session.id;
    CurrentIsSnapshot(after, id);
    PathInGrows(before.entries[id], after.entries[id], session.activeLeafId);
  }

  lemma SinceGrows(before: Store, after: Store, session: Session, path: seq<Entry>)
    requires Since(before, session, path) && Grows(before, after) && StoreSound(after) && LeavesAreLast(after)
    ensures Since(after, session, path)
  {
    hide Run, RootPath, WellFormed, IndexOf;
    var id := session.id;
    SnapshotGrows(before, after, session);
    PathInGrows(before.entries[id], after.entries[id], session.activeLeafId);
    PathInGrows(before.entries[id], after.entries[id], path[|path| - 1].id);
  }

  lemma AppendMakesLeaf(store: Store, session: Session, all: seq<Entry>, input: Input)
    requires LeavesAreLast(store) && session.id in store.sessions && store.sessions[session.id].id == session.id
    ensures LeavesAreLast(Committed(store, session, all, input).0)
  {
    hide CandidatePath, Projected, Blank;
    if Prepared(session, all, input).Ok? { hide Prepared; PreparedLeaf(session, all, input); }
  }

  lemma PreparedLeaf(session: Session, all: seq<Entry>, input: Input)
    requires Prepared(session, all, input).Ok?
    ensures var (e, m) := Prepared(session, all, input).value; m.activeLeafId == e.id && e.sessionId == session.id
  {
    hide CandidatePath, Projected;
  }

  lemma TurnKeepsLeaves(system: System, turn: Turn)
    requires SystemSound(system) && LeavesAreLast(system.store)
    ensures LeavesAreLast(SessionStore.Next(system, turn).store)
  {
    hide Committed, StoreSound, Blank;
    if turn.Resume? && turn.call in system.calls && system.calls[turn.call].ReadEntries? {
      var c := system.calls[turn.call];
      assert CallSound(system.store, c);
      SoundSession(system, c.session.id);
      AppendMakesLeaf(system.store, c.session, c.all, c.input);
    }
  }

  lemma AppendsGrows(before: Store, after: Store, call: Call, path: seq<Entry>)
    requires AppendsSince(before, call, path) && Grows(before, after) && StoreSound(after) && LeavesAreLast(after)
    ensures AppendsSince(after, call, path)
  {
    hide Snapshot, Since;
    if !call.Finished? {
      assert Since(before, call.session, path);
      SinceGrows(before, after, call.session, path);
      assert Snapshot(before, call.session) by { SinceIsSnapshot(before, call.session, path); }
      SnapshotGrows(before, after, call.session);
      GrowsFrom(before, after, call.session);
    }
  }

  lemma SinceIsSnapshot(store: Store, session: Session, path: seq<Entry>)
    requires Since(store, session, path)
    ensures Snapshot(store, session)
  {}

  lemma GrowsFrom(before: Store, after: Store, session: Session)
    requires Snapshot(before, session) && Grows(before, after)
    ensures session.id in after.entries && before.entries[session.id] <= after.entries[session.id]
  {
    hide Run;
  }

  /** A turn lets a call read its entries, or finish, or stays out of it. */
  lemma TurnMovesCall(system: System, turn: Turn, call: nat, path: seq<Entry>)
    requires SystemSound(system) && call in system.calls && AppendsSince(system.store, system.calls[call], path)
    ensures call in SessionStore.Next(system, turn).calls
    ensures AppendsSince(system.store, SessionStore.Next(system, turn).calls[call], path)
  {
    hide Committed, Since, Snapshot, StoreSound;
    var c := system.calls[call];
    if turn == Resume(call) && c.ReadSession? {
      assert CallSound(system.store, c);
      SinceIsSnapshot(system.store, c.session, path);
      WholeIsRead(system.store, c.session);
    }
  }

  lemma WholeIsRead(store: Store, session: Session)
    requires Snapshot(store, session)
    ensures ReadBy(store, session, EntriesOf(store, session.id))
  {
    hide Run;
  }

  lemma RecoveryStaysSound(system: System, turn: Turn, r: Recovery)
    requires SystemSound(system) && LeavesAreLast(system.store) && RecoverySound(system, r)
    requires SystemSound(SessionStore.Next(system, turn))
    ensures RecoverySound(SessionStore.Next(system, turn), r)
  {
    hide SessionStore.Next, Snapshot, AppendsSince, StoreSound;
    var next := SessionStore.Next(system, turn);
    TurnKeepsLeaves(system, turn);
    assert Grows(system.store, next.store) by { SoundGrows(system, turn); }
    match r
    case Loading(_, session) => SnapshotGrows(system.store, next.store, session);
    case Loaded(_, session, all) =>
      SnapshotGrows(system.store, next.store, session);
      GrowsFrom(system.store, next.store, session);
    case Appending(call, _, path) =>
      TurnMovesCall(system, turn, call, path);
      AppendsGrows(system.store, next.store, next.calls[call], path);
    case _ =>
  }

  lemma SoundGrows(system: System, turn: Turn)
    requires SystemSound(system)
    ensures Grows(system.store, SessionStore.Next(system, turn).store)
  {
    hide SessionStore.Next, SessionSound;
    forall id <- system.store.sessions ensures system.store.sessions[id].id == id { SoundSession(system, id); }
    NextGrows(system, turn);
  }

  // ---------- the invariant over schedules ----------

  /** The append of a recovery begins under what the session is then. */
  lemma ReadPathIsStored(store: Store, session: Session, all: seq<Entry>)
    requires ReadBy(store, session, all)
    ensures ReadPath(session, all) == Ok(PathIn(store.entries[session.id], session.activeLeafId))
  {
    hide Run, RootPath, PathTo, Blank;
    var entries := store.entries[session.id];
    StoredPrefix(store, session.id, all);
    StoredPrefix(store, session.id, entries);
    PathIsRootPath(all, IndexOf(all, session.activeLeafId));
    PathInGrows(all, entries, session.activeLeafId);
  }

  lemma BegunIsSince(system: System, session: Session, all: seq<Entry>)
    requires SystemSound(system) && LeavesAreLast(system.store) && ReadBy(system.store, session, all)
    ensures session.id in system.store.sessions && ReadPath(session, all).Ok?
    ensures Since(system.store, system.store.sessions[session.id], ReadPath(session, all).value)
  {
    hide Run, RootPath, Blank, ReadPath, StoreSound;
    var id := session.id;
    var entries := system.store.entries[id];
    CurrentIsSnapshot(system.store, id);
    ReadPathIsStored(system.store, session, all);
    PathEndsAt(entries, session.activeLeafId);
  }

  lemma PathEndsAt(entries: seq<Entry>, id: string)
    requires WellFormed(entries) && id in Ids(entries)
    ensures var path := PathIn(entries, id);
            path != [] && path[|path| - 1].id == id && path[0].kind == entries[0].kind
  {
    hide RootPath;
    RootPathShape(entries, IndexOf(entries, id));
  }

  lemma RecoveryMoves(s: Schedule, recovery: nat, call: nat)
    requires ScheduleSound(s) && recovery in s.recoveries && SystemSound(Resumed(s, recovery, call).system)
    ensures ScheduleSound(Resumed(s, recovery, call))
  {
    hide SystemSound, StoreSound, SessionStore.Next, ChosenFor, ReadPath, Snapshot, Since, LeavesAreLast;
    var next := Resumed(s, recovery, call);
    assert RecoverySound(s.system, s.recoveries[recovery]);
    match s.recoveries[recovery]
    case Checked(_, sessionId) => if sessionId in s.system.store.sessions { CheckedMoves(s, sessionId); }
    case Loading(_, session) => WholeIsRead(s.system.store, session);
    case Loaded(source, session, all) =>
      var input := ChosenFor(session, all, source);
      if input.Some? && call !in s.system.calls {
        var turn := BeginAppend(call, session.id, input.value);
        BegunIsSince(s.system, session, all);
        BegunRead(s.system, call, session.id, input.value);
        TurnKeepsLeaves(s.system, turn);
        forall r | r in s.recoveries && r != recovery ensures RecoverySound(next.system, next.recoveries[r]) {
          RecoveryStaysSound(s.system, turn, s.recoveries[r]);
        }
      }
    case _ =>
  }

  lemma CheckedMoves(s: Schedule, sessionId: string)
    requires ScheduleSound(s) && sessionId in s.system.store.sessions
    ensures Snapshot(s.system.store, s.system.store.sessions[sessionId])
  {
    hide Snapshot, StoreSound;
    assert StoreSound(s.system.store);
    CurrentIsSnapshot(s.system.store, sessionId);
  }

  lemma BegunRead(system: System, call: nat, id: string, input: Input)
    requires call !in system.calls && id in system.store.sessions
    ensures SessionStore.Next(system, BeginAppend(call, id, input))
         == system.(calls := system.calls[call := ReadSession(input, system.store.sessions[id])])
  {}

  lemma MoveKeepsSound(s: Schedule, move: Move)
    requires ScheduleSound(s) && SystemSound(After(s, move).system)
    ensures ScheduleSound(After(s, move))
  {
    hide SystemSound, SessionStore.Next, LeavesAreLast, Resumed, RecoverySound;
    match move
    case Other(turn) =>
      TurnKeepsLeaves(s.system, turn);
      forall r | r in s.recoveries ensures RecoverySound(After(s, move).system, s.recoveries[r]) {
        RecoveryStaysSound(s.system, turn, s.recoveries[r]);
      }
    case BeginRecovery(recovery, sessionId, source) => FreshIsSound(s.system, source, sessionId);
    case ResumeRecovery(recovery, call) => if recovery in s.recoveries { RecoveryMoves(s, recovery, call); }
  }

  lemma FreshIsSound(system: System, source: Source, sessionId: string)
    ensures RecoverySound(system, Checked(source, sessionId)) && RecoverySound(system, Over)
  {}

  lemma {:induction false} PerformIsSound(moves: seq<Move>)
    ensures ScheduleSound(Perform(moves))
  {
    hide After, SystemSound, LeavesAreLast, RecoverySound, SessionStore.Play;
    var turns := PerformsARun(moves);
    PlayIsSound(turns);
    if moves == [] {
      assert LeavesAreLast(SessionStore.Play([]).store) by { NothingStored(); }
    } else {
      PerformIsSound(moves[..|moves| - 1]);
      MoveKeepsSound(Perform(moves[..|moves| - 1]), moves[|moves| - 1]);
    }
  }

  lemma NothingStored()
    ensures LeavesAreLast(SessionStore.Play([]).store)
  {}

  // ---------- main results ----------

  /** A recovery that has read a session and its entries has read a path that projects, and
      goes on to append exactly when that path leaves open what recovery can put right. */
  lemma BeginsExactly(moves: seq<Move>, recovery: nat, call: nat)
    requires var s := Perform(moves);
      recovery in s.recoveries && s.recoveries[recovery].Loaded? && call !in s.system.calls
    ensures var r := Perform(moves).recoveries[recovery];
      var path, next := ReadPath(r.session, r.all), Perform(moves + [ResumeRecovery(recovery, call)]).recoveries;
      && path.Ok? && Accepted(path.value) && recovery in next
      && (next[recovery].Appending? <==> LeftOpen(path.value))
      && (next[recovery].Appending? || next[recovery].Over?)
  {
    hide Perform, ReadPath, Choice, LeftOpen, SessionStore.Next, SystemSound;
    var s := Perform(moves);
    var r := s.recoveries[recovery];
    PerformIsSound(moves);
    assert RecoverySound(s.system, r);
    ReadPathIsStored(s.system.store, r.session, r.all);
    ChoosesExactly(ReadPath(r.session, r.all).value, r.source);
    PerformSnoc(moves, ResumeRecovery(recovery, call));
  }

  /** A recovery whose append has read its session and entries, and is to commit. */
  predicate Ready(s: Schedule, recovery: nat) {
    && recovery in s.recoveries && s.recoveries[recovery].Appending?
    && s.recoveries[recovery].call in s.system.calls && s.system.calls[s.recoveries[recovery].call].ReadEntries?
  }

  function CallOf(s: Schedule, recovery: nat): Call
    requires Ready(s, recovery)
  {
    s.system.calls[s.recoveries[recovery].call]
  }

  /** The id of its entry is new, nothing was stored in the session since it read the entries,
      and the ledger, at the leaf it had read before, takes its remedy. */
  ghost predicate Timely(s: Schedule, recovery: nat)
    requires Ready(s, recovery)
  {
    var c, entries := CallOf(s, recovery), EntriesOf(s.system.store, CallOf(s, recovery).session.id);
    && NewIdIn(entries, c.input.id) && c.all == entries && WellFormed(entries) && c.session.activeLeafId in Ids(entries)
    && var path := PathIn(entries, c.session.activeLeafId);
    && Run(path).Ok? && Takes(Run(path).value, c.input)
  }

  /** In every schedule, the append of a recovery that is ready is stored exactly when its id
      is new, nothing was stored in its session since it read the entries, and the ledger at
      the leaf it had read before takes its remedy. */
  lemma RemedyStoredExactly(moves: seq<Move>, recovery: nat)
    requires Ready(Perform(moves), recovery)
    ensures Commits(Perform(moves), recovery) <==> Timely(Perform(moves), recovery)
  {
    hide Perform, Committed, Takes, SystemSound, Run, NewIdIn;
    var s := Perform(moves);
    var r, c := s.recoveries[recovery], CallOf(s, recovery);
    ReadyIsSound(moves, recovery);
    RemedyStored(s.system.store, c.session, c.all, c.input, r.path, r.source);
  }

  lemma ReadyIsSound(moves: seq<Move>, recovery: nat)
    requires Ready(Perform(moves), recovery)
    ensures var s := Perform(moves);
      var r, c := s.recoveries[recovery], CallOf(s, recovery);
      && ReadBy(s.system.store, c.session, c.all) && Since(s.system.store, c.session, r.path)
      && ChosenOn(r.path, r.source, c.input)
  {
    hide Perform, SystemSound, Snapshot, Since, ReadBy, ChosenOn;
    var s := Perform(moves);
    PerformIsSound(moves);
    assert RecoverySound(s.system, s.recoveries[recovery]);
    PerformAppendsRemedies(moves);
    assert InputOf(CallOf(s, recovery)) == Some(CallOf(s, recovery).input);
  }

  lemma RemedyStored(store: Store, session: Session, all: seq<Entry>, input: Input, path: seq<Entry>, source: Source)
    requires ReadBy(store, session, all) && Accepted(path) && ChosenOn(path, source, input)
    ensures var entries := store.entries[session.id];
      Committed(store, session, all, input).1.Ok? <==>
        && NewIdIn(entries, input.id) && all == entries
        && Takes(Run(PathIn(entries, session.activeLeafId)).value, input)
  {
    hide Committed, Takes, Run, RootPath, ChosenOn;
    var entries := store.entries[session.id];
    CommitsExactly(store, session, all, input);
    RemedyNamesNoParent(path, source, input);
    if NewIdIn(entries, input.id) && all == entries {
      ChosenIsRemedy(path, source, input);
      ExtendsExactly(store, session, input);
    }
  }

  lemma ExtendsExactly(store: Store, session: Session, input: Input)
    requires Snapshot(store, session) && IsRemedyInput(input) && input.parent.None?
    requires !Blank(input.id) && input.id !in Ids(store.entries[session.id])
    ensures var entries := store.entries[session.id];
            Extends(session, entries, input) <==> Takes(Run(PathIn(entries, session.activeLeafId)).value, input)
  {
    hide Takes, Step, IsRemedyInput, Blank;
    var entries := store.entries[session.id];
    var path, e := PathIn(entries, session.activeLeafId), NewEntry(session, entries, input);
    assert (path + [e])[..|path|] == path;
    RunIsSound(path);
    EntryIsLater(store, session, input);
    TakesExactly(Run(path).value, input, e);
  }

  lemma EntryIsLater(store: Store, session: Session, input: Input)
    requires Snapshot(store, session) && input.id !in Ids(store.entries[session.id])
    ensures var entries := store.entries[session.id];
            Later(Run(PathIn(entries, session.activeLeafId)).value, NewEntry(session, entries, input))
  {
    hide Run;
    var entries := store.entries[session.id];
    var i := IndexOf(entries, session.activeLeafId);
    RootPathShape(entries, i);
    SeenAreIds(PathIn(entries, session.activeLeafId));
    assert forall x <- PathIn(entries, session.activeLeafId) :: x in entries;
    assert entries[|entries| - 1].sequence == |entries|;
  }

  // ---------- two recoveries that decided on one path ----------

  /** The first recovery is about to store its remedy, and decided on what is still the
      session's active path. */
  ghost predicate Leads(s: Schedule, first: nat) {
    && Commits(s, first)
    && var id := CallOf(s, first).session.id;
    && Stored(s.system.store, id) && s.recoveries[first].path == PathOf(s.system.store, id)
  }

  /** Later, the second recovery decided on the same path and is about to commit; in the
      session, nothing but the first one's entry was stored in between. */
  ghost predicate Rivals(s: Schedule, first: nat, later: Schedule, second: nat)
    requires Leads(s, first)
  {
    && Ready(later, second) && later.recoveries[second].path == s.recoveries[first].path
    && var id := CallOf(s, first).session.id;
    && CallOf(later, second).session.id == id
    && |EntriesOf(later.system.store, id)| == |EntriesOf(s.system.store, id)| + 1
  }

  /** The second has read the entries with the first one's among them; and it had read the
      session before that entry was stored, or its remedy interrupts, or it asks for an
      approval while nothing is pending. */
  ghost predicate BothFit(s: Schedule, first: nat, later: Schedule, second: nat)
    requires Leads(s, first) && Rivals(s, first, later, second)
  {
    var c, path := CallOf(later, second), s.recoveries[first].path;
    && NewIdIn(EntriesOf(later.system.store, c.session.id), c.input.id)
    && c.all == EntriesOf(later.system.store, c.session.id)
    && path != [] && Run(path).Ok?
    && (c.session.activeLeafId == path[|path| - 1].id
        || c.input.kind.SessionInterrupted?
        || (c.input.kind.RecoveryRequired? && Run(path).value.pending.None?))
  }

  lemma TurnGrows(s: Schedule, move: Move)
    requires ScheduleSound(s)
    ensures Grows(s.system.store, After(s, move).system.store)
  {
    hide SessionStore.Next, ChosenFor, SystemSound;
    if After(s, move).system != s.system {
      var turn := TurnOf(s, move);
      SoundGrows(s.system, turn);
    }
  }

  lemma {:induction false} PerformGrows(moves: seq<Move>, later: seq<Move>)
    ensures Grows(Perform(moves).system.store, Perform(moves + later).system.store)
    decreases |later|
  {
    hide After, ScheduleSound;
    if later == [] {
      assert moves + later == moves;
    } else {
      var front := moves + later[..|later| - 1];
      assert (moves + later)[..|moves + later| - 1] == front;
      PerformGrows(moves, later[..|later| - 1]);
      PerformIsSound(front);
      TurnGrows(Perform(front), later[|later| - 1]);
    }
  }

  /** What the first recovery's commit does: it goes after the active path. */
  lemma LeadCommits(moves: seq<Move>, first: nat) returns (e: Entry)
    requires Leads(Perform(moves), first)
    ensures var s := Perform(moves);
      var c, r := CallOf(s, first), s.recoveries[first];
      var id, next := c.session.id, Perform(moves + [Other(Resume(r.call))]).system.store;
      && Stored(next, id) && next.entries[id] == s.system.store.entries[id] + [e]
      && PathOf(next, id) == r.path + [e] && Accepted(r.path + [e]) && Accepted(r.path)
      && e == NewEntry(c.session, s.system.store.entries[id], c.input)
      && Takes(Run(r.path).value, c.input)
  {
    hide Perform, Committed, Takes, Run, RootPath, SystemSound, ChosenOn, Stored;
    var s := Perform(moves);
    var c, r := CallOf(s, first), s.recoveries[first];
    var id := c.session.id;
    ReadyIsSound(moves, first);
    PerformIsSound(moves);
    LeadIsLast(s, c.session, r.path);
    RemedyStored(s.system.store, c.session, c.all, c.input, r.path, r.source);
    var path;
    path, e := CommittedPath(s.system.store, c.session, c.input);
    RemedyNamesNoParent(r.path, r.source, c.input);
    PerformSnoc(moves, Other(Resume(r.call)));
  }

  /** A session read since the active path was decided on has the leaf of that path. */
  lemma LeadIsLast(s: Schedule, session: Session, path: seq<Entry>)
    requires ScheduleSound(s) && Stored(s.system.store, session.id) && path == PathOf(s.system.store, session.id)
    requires Since(s.system.store, session, path)
    ensures session.activeLeafId == path[|path| - 1].id
    ensures PathIn(s.system.store.entries[session.id], session.activeLeafId) == path
    ensures IndexOf(s.system.store.entries[session.id], session.activeLeafId)
        == |s.system.store.entries[session.id]| - 1
  {
    hide Run, RootPath;
    var store, id := s.system.store, session.id;
    CurrentIsSnapshot(store, id);
    PathEndsAt(store.entries[id], store.sessions[id].activeLeafId);
  }

  /** A path and one more stored entry: what a session read since that path can have read. */
  lemma RivalPath(store: Store, session: Session, path: seq<Entry>, e: Entry)
    requires Since(store, session, path) && LeavesAreLast(store) && StoreSound(store)
    requires var entries := store.entries[session.id];
      && |entries| > 1 && entries[|entries| - 1] == e && IndexOf(entries, path[|path| - 1].id) == |entries| - 2
      && PathIn(entries, e.id) == path + [e]
    ensures var read := PathIn(store.entries[session.id], session.activeLeafId);
      && (session.activeLeafId == path[|path| - 1].id ==> read == path)
      && (session.activeLeafId != path[|path| - 1].id ==> read == path + [e])
  {
    hide Run, RootPath, StoreSound;
    var entries := store.entries[session.id];
    var i := IndexOf(entries, session.activeLeafId);
    if i == |entries| - 2 {
      assert session.activeLeafId == path[|path| - 1].id;
    } else {
      assert session.activeLeafId == e.id;
      LookupIsEntry(entries, |entries| - 1);
    }
  }

  /** The remedy of the first is taken by the path it was chosen on; the same remedy of the
      second, by that path or by the path with the first one's entry. */
  lemma SecondTakes(path: seq<Entry>, e: Entry, input: Input, other: Input)
    requires Accepted(path) && Accepted(path + [e]) && IsRemedyInput(input) && Takes(Run(path).value, input)
    requires e.kind == input.kind && e.payload == input.payload && e.meta == input.meta
    requires other.kind == input.kind && other.payload == input.payload && other.meta == input.meta
    ensures Takes(Run(path).value, other)
    ensures Takes(Run(path + [e]).value, other) <==>
      input.kind.SessionInterrupted? || (input.kind.RecoveryRequired? && Run(path).value.pending.None?)
  {
    hide Run, Effect;
    assert (path + [e])[..|path|] == path;
    var s, t := LastEffect(path + [e]);
    RunIsSound(path);
    TakesAgainExactly(s, input, e, t, other);
  }

  lemma RivalEntries(moves: seq<Move>, first: nat, later: seq<Move>, second: nat, e: Entry)
    requires Leads(Perform(moves), first)
    requires var call := Perform(moves).recoveries[first].call;
      Rivals(Perform(moves), first, Perform(moves + [Other(Resume(call))] + later), second)
    requires var s := Perform(moves);
      var id := CallOf(s, first).session.id;
      var next := Perform(moves + [Other(Resume(s.recoveries[first].call))]).system.store;
      Stored(next, id) && next.entries[id] == s.system.store.entries[id] + [e]
      && PathOf(next, id) == s.recoveries[first].path + [e]
    ensures var s := Perform(moves);
      var id, after := CallOf(s, first).session.id, Perform(moves + [Other(Resume(s.recoveries[first].call))] + later);
      && id in after.system.store.entries && after.system.store.entries[id] == s.system.store.entries[id] + [e]
      && e.id in Ids(after.system.store.entries[id]) && WellFormed(after.system.store.entries[id])
      && PathIn(after.system.store.entries[id], e.id) == s.recoveries[first].path + [e]
  {
    hide Perform, RootPath, Committed, Run, Since;
    var s := Perform(moves);
    var id, front := CallOf(s, first).session.id, moves + [Other(Resume(s.recoveries[first].call))];
    var next, after := Perform(front), Perform(front + later);
    PerformGrows(front, later);
    PerformIsSound(front);
    assert after.system.store.entries[id] == next.system.store.entries[id];
    assert StoreSound(next.system.store) && LeavesAreLast(next.system.store);
    CurrentIsSnapshot(next.system.store, id);
    assert next.system.store.sessions[id].activeLeafId == e.id;
  }

  /** Two recoveries that decided on one path: once the remedy of the first is stored, that of
      the second is stored too, whatever other moves there were, if and only if its id is new,
      it reads the entries after that, and it read the session before that, or its remedy
      interrupts, or it asks for an approval while nothing is pending. */
  lemma TwoRecoveries(moves: seq<Move>, first: nat, later: seq<Move>, second: nat)
    requires Leads(Perform(moves), first)
    requires var call := Perform(moves).recoveries[first].call;
      Rivals(Perform(moves), first, Perform(moves + [Other(Resume(call))] + later), second)
    ensures var s := Perform(moves);
      var after := Perform(moves + [Other(Resume(s.recoveries[first].call))] + later);
      Commits(after, second) <==> BothFit(s, first, after, second)
  {
    hide Perform, Takes, Committed, Run, RootPath, Stored, Snapshot, ReadBy, SystemSound, NewIdIn, ChosenOn,
         StoreSound, IndexOf;
    var s := Perform(moves);
    var front := moves + [Other(Resume(s.recoveries[first].call))];
    var after := Perform(front + later);
    var path, c, d := s.recoveries[first].path, CallOf(s, first), CallOf(after, second);
    var e := LeadCommits(moves, first);
    RivalEntries(moves, first, later, second, e);
    ReadyIsSound(moves, first);
    ReadyIsSound(front + later, second);
    PerformIsSound(front + later);
    SameRemedy(path, s.recoveries[first].source, after.recoveries[second].source, c.input, d.input);
    ChosenIsRemedy(path, s.recoveries[first].source, c.input);
    SecondTakes(path, e, c.input, d.input);
    RivalIndex(moves, first, path, e, after);
    SoundStore(after.system);
    RivalPath(after.system.store, d.session, path, e);
    RemedyStored(after.system.store, d.session, d.all, d.input, path, after.recoveries[second].source);
  }

  lemma RivalIndex(moves: seq<Move>, first: nat, path: seq<Entry>, e: Entry, after: Schedule)
    requires var s := Perform(moves);
      && Leads(s, first) && path == s.recoveries[first].path
      && var id := CallOf(s, first).session.id;
      && id in after.system.store.entries && WellFormed(after.system.store.entries[id])
      && after.system.store.entries[id] == s.system.store.entries[id] + [e]
    ensures path != []
    ensures path[|path| - 1].id in Ids(after.system.store.entries[CallOf(Perform(moves), first).session.id])
    ensures var entries := after.system.store.entries[CallOf(Perform(moves), first).session.id];
      |entries| > 1 && IndexOf(entries, path[|path| - 1].id) == |entries| - 2
  {
    hide Perform, Committed, Run, RootPath, SystemSound;
    var s := Perform(moves);
    var c := CallOf(s, first);
    var entries := s.system.store.entries[c.session.id];
    ReadyIsSound(moves, first);
    PerformIsSound(moves);
    LeadIsLast(s, c.session, path);
    PathInGrows(entries, entries + [e], c.session.activeLeafId);
  }

  lemma SoundStore(system: System)
    requires SystemSound(system)
    ensures StoreSound(system.store)
  {}
}
