/** Recoveries interleaved with each other and with appends: what they leave in the store,
    and what the runtime does not do then. */
module RecoverySchedules {
  import opened Wrappers
  import opened Texts
  import opened SessionLedger
  import opened LedgerEffects
  import opened ActivePath
  import opened RecoveryScan
  import opened SessionStore
  import opened SessionRecovery

  /** Where a recovery is suspended; its append is a call of the store's, decided on a path
      it had read. */
  datatype Recovery =
    | Checked(source: Source, sessionId: string)
    | Loading(source: Source, session: Session)
    | Loaded(source: Source, session: Session, all: seq<Entry>)
    | Appending(call: nat, source: Source, path: seq<Entry>)
    | Over

  datatype Schedule = Schedule(system: System, recoveries: map<nat, Recovery>)

  /** One atomic step: of a creation or an append, or of a recovery, which finds the session,
      reads it again, reads its entries, and then begins its append, if it makes one. */
  datatype Move =
    | Other(turn: Turn)
    | BeginRecovery(recovery: nat, sessionId: string, source: Source)
    | ResumeRecovery(recovery: nat, call: nat)

  /** The path a recovery has read. */
  function ReadPath(session: Session, all: seq<Entry>): Result<seq<Entry>, PathError> {
    PathTo(all, Some(session.activeLeafId))
  }

  /** What a recovery that has read a session and its entries appends. */
  function ChosenFor(session: Session, all: seq<Entry>, source: Source): Option<Input> {
    match ReadPath(session, all)
    case Err(_) => None
    case Ok(path) => if Choice(path, source).Ok? then Choice(path, source).value else None
  }

  function Resumed(s: Schedule, recovery: nat, call: nat): Schedule
    requires recovery in s.recoveries
  {
    match s.recoveries[recovery]
    case Checked(source, sessionId) =>
      var session := SessionOf(s.system.store, sessionId);
      s.(recoveries := s.recoveries[recovery := if session.None? then Over else Loading(source, session.value)])
    case Loading(source, session) =>
      s.(recoveries := s.recoveries[recovery := Loaded(source, session, EntriesOf(s.system.store, session.id))])
    case Loaded(source, session, all) =>
      var input := ChosenFor(session, all, source);
      if input.None? then s.(recoveries := s.recoveries[recovery := Over])
      else if call in s.system.calls then s
      else Schedule(SessionStore.Next(s.system, BeginAppend(call, session.id, input.value)),
                    s.recoveries[recovery := Appending(call, source, ReadPath(session, all).value)])
    case Appending(_, _, _) => s
    case Over => s
  }

  function After(s: Schedule, move: Move): Schedule {
    match move
    case Other(turn) => s.(system := SessionStore.Next(s.system, turn))
    case BeginRecovery(recovery, sessionId, source) =>
      if recovery in s.recoveries then s
      else s.(recoveries := s.recoveries[recovery :=
               if sessionId in s.system.store.sessions then Checked(source, sessionId) else Over])
    case ResumeRecovery(recovery, call) => if recovery in s.recoveries then Resumed(s, recovery, call) else s
  }

  function Perform(moves: seq<Move>): Schedule {
    if moves == [] then Schedule(SessionStore.Play([]), map[])
    else After(Perform(moves[..|moves| - 1]), moves[|moves| - 1])
  }

  // ---------- recoveries only append ----------

  /** To the store, a schedule with recoveries is a run of creations and appends. */
  lemma {:induction false} PerformsARun(moves: seq<Move>) returns (turns: seq<Turn>)
    ensures SessionStore.Play(turns) == Perform(moves).system
  {
    if moves == [] {
      turns := [];
    } else {
      hide SessionStore.Next, ChosenFor;
      var before, move := Perform(moves[..|moves| - 1]), moves[|moves| - 1];
      turns := PerformsARun(moves[..|moves| - 1]);
      if After(before, move).system != before.system {
        var turn := TurnOf(before, move);
        assert (turns + [turn])[..|turns|] == turns;
        turns := turns + [turn];
      }
    }
  }

  lemma TurnOf(s: Schedule, move: Move) returns (turn: Turn)
    requires After(s, move).system != s.system
    ensures After(s, move).system == SessionStore.Next(s.system, turn)
  {
    hide SessionStore.Next, ChosenFor;
    if move.Other? {
      turn := move.turn;
    } else {
      var r := s.recoveries[move.recovery];
      turn := BeginAppend(move.call, r.session.id, ChosenFor(r.session, r.all, r.source).value);
    }
  }

  /** Whatever recoveries and appends interleave, every session keeps its tree, its active
      path, and its cached status. */
  lemma SchedulesAreSound(moves: seq<Move>, id: string)
    requires id in Perform(moves).system.store.sessions
    ensures id in Perform(moves).system.store.entries
    ensures var session, entries := Perform(moves).system.store.sessions[id], Perform(moves).system.store.entries[id];
      && WellFormed(entries)
      && PathTo(entries, Some(session.activeLeafId)).Ok?
      && var path := PathTo(entries, Some(session.activeLeafId)).value;
      && Accepted(path) && path[0] == entries[0] && path[|path| - 1].id == session.activeLeafId
      && (session.status != Run(path).value.status <==> IsPlainRecovery(path[|path| - 1]))
  {
    hide Perform, SessionStore.Play, Run, PathTo;
    var turns := PerformsARun(moves);
    EveryInterleaving(turns, id);
  }

  // ---------- a recovery's append ----------

  function InputOf(call: Call): Option<Input> {
    match call
    case ReadSession(input, _) => Some(input)
    case ReadEntries(input, _, _) => Some(input)
    case Finished(_) => None
  }

  predicate ChosenOn(path: seq<Entry>, source: Source, input: Input) { Choice(path, source) == Ok(Some(input)) }

  /** The append of a recovery is the remedy it chose on the path it had read. */
  ghost predicate AppendsRemedies(s: Schedule) {
    forall r <- s.recoveries :: s.recoveries[r].Appending? ==>
      s.recoveries[r].call in s.system.calls
      && var input := InputOf(s.system.calls[s.recoveries[r].call]);
      (input.Some? ==> ChosenOn(s.recoveries[r].path, s.recoveries[r].source, input.value))
  }

  lemma ChosenIsRemedy(path: seq<Entry>, source: Source, input: Input)
    requires ChosenOn(path, source, input)
    ensures IsRemedyInput(input) && input.id == source.id
  {
    hide Choice;
    ChoiceKind(path, source);
  }

  lemma ChosenForIsChosen(session: Session, all: seq<Entry>, source: Source)
    requires ChosenFor(session, all, source).Some?
    ensures ReadPath(session, all).Ok?
    ensures ChosenOn(ReadPath(session, all).value, source, ChosenFor(session, all, source).value)
  {
    hide PathTo, Choice;
  }

  /** A turn keeps what a call is to append. */
  lemma TurnKeepsInputs(system: System, turn: Turn, call: nat)
    requires call in system.calls
    ensures var next := SessionStore.Next(system, turn);
      call in next.calls
      && (InputOf(next.calls[call]).Some? ==> InputOf(next.calls[call]) == InputOf(system.calls[call]))
  {
    hide Committed;
  }

  lemma BegunCall(system: System, call: nat, sessionId: string, input: Input)
    requires call !in system.calls
    ensures var next := SessionStore.Next(system, BeginAppend(call, sessionId, input));
      && call in next.calls && (InputOf(next.calls[call]).Some? ==> InputOf(next.calls[call]) == Some(input))
      && next.store == system.store
  {}

  lemma AfterAppendsRemedies(s: Schedule, move: Move)
    requires AppendsRemedies(s)
    ensures AppendsRemedies(After(s, move))
  {
    hide SessionStore.Next, ChosenFor, ChosenOn, InputOf, ReadPath;
    var next := After(s, move);
    forall r | r in next.recoveries && next.recoveries[r].Appending?
      ensures next.recoveries[r].call in next.system.calls
      ensures var input := InputOf(next.system.calls[next.recoveries[r].call]);
              input.Some? ==> ChosenOn(next.recoveries[r].path, next.recoveries[r].source, input.value)
    {
      if r in s.recoveries && s.recoveries[r] == next.recoveries[r] {
        if next.system != s.system {
          var turn := TurnOf(s, move);
          TurnKeepsInputs(s.system, turn, s.recoveries[r].call);
        }
      } else {
        var before := s.recoveries[r];
        ChosenForIsChosen(before.session, before.all, before.source);
        BegunCall(s.system, move.call, before.session.id, ChosenFor(before.session, before.all, before.source).value);
      }
    }
  }

  lemma {:induction false} PerformAppendsRemedies(moves: seq<Move>)
    ensures AppendsRemedies(Perform(moves))
  {
    hide After;
    if moves != [] {
      PerformAppendsRemedies(moves[..|moves| - 1]);
      AfterAppendsRemedies(Perform(moves[..|moves| - 1]), moves[|moves| - 1]);
    }
  }

  // ---------- what a recovery's commit leaves ----------

  lemma CommitIsStored(store: Store, session: Session, all: seq<Entry>, input: Input)
    requires StoreSound(store) && session.id in store.sessions
    requires all <= store.entries[session.id] && all != [] && session.activeLeafId in Ids(all)
    requires Committed(store, session, all, input).1.Ok?
    ensures Stored(store, session.id) && all == store.entries[session.id]
  {
    hide Run, Follows, PointsAtLeaf, CandidatePath, Projected;
    var id := session.id;
    assert SessionSound(id, store.sessions[id], store.entries[id]);
    StoredSession(id, store.sessions[id], store.entries[id]);
    PrefixIsTree(id, all, store.entries[id]);
    PreparedFollows(session, all, input);
    var (e, m) := Prepared(session, all, input).value;
    SequenceGuard(all, store.entries[id], e, m);
    assert ValidEntry(e);
  }

  /** The commit of a remedy leaves a session that has nothing left to recover. */
  lemma RemedyCommitIsStable(store: Store, session: Session, input: Input)
    requires Stored(store, session.id) && session.activeLeafId in Ids(store.entries[session.id]) && IsRemedyInput(input)
    requires Committed(store, session, store.entries[session.id], input).1.Ok?
    ensures var id, next := session.id, Committed(store, session, store.entries[session.id], input).0;
      && Stored(next, id) && Stable(PathOf(next, id))
      && exists e :: IsRemedy(e) && next.entries[id] == store.entries[id] + [e]
  {
    hide Committed, PathOf, Stored, Stable;
    var path, e := CommittedPath(store, session, input);
    AppendedIsStable(path, e);
  }

  /** The recovery's append has read its entries, and its commit succeeds. */
  ghost predicate Commits(s: Schedule, recovery: nat) {
    && recovery in s.recoveries && s.recoveries[recovery].Appending?
    && var call := s.recoveries[recovery].call;
    && call in s.system.calls && s.system.calls[call].ReadEntries?
    && var c := s.system.calls[call];
    && Committed(s.system.store, c.session, c.all, c.input).1.Ok?
  }

  /** The session has gained one entry, a remedy, and has nothing left to recover: a
      recovery started now appends nothing and returns the state. */
  ghost predicate RecoveredFrom(before: Store, next: Store, id: string) {
    && id in before.entries && Stored(next, id) && Stable(PathOf(next, id))
    && (exists e :: IsRemedy(e) && next.entries[id] == before.entries[id] + [e])
    && CurrentState(next, id).Ok?
    && forall source :: RecoveredStore(next, id, source) == (next, CurrentState(next, id))
  }

  lemma CommitRecovers(system: System, call: nat)
    requires SystemSound(system) && call in system.calls && system.calls[call].ReadEntries?
    requires var c := system.calls[call];
      IsRemedyInput(c.input) && Committed(system.store, c.session, c.all, c.input).1.Ok?
    ensures RecoveredFrom(system.store, SessionStore.Next(system, Resume(call)).store, system.calls[call].session.id)
  {
    hide StoreSound, Committed, RecoveredStore, Stable, PathOf, Stored, CurrentState, IsRemedyInput;
    var c := system.calls[call];
    var id := c.session.id;
    assert CallSound(system.store, c);
    CommitIsStored(system.store, c.session, c.all, c.input);
    RemedyCommitIsStable(system.store, c.session, c.input);
    var next := Committed(system.store, c.session, c.all, c.input).0;
    forall source
      ensures RecoveredStore(next, id, source) == (next, CurrentState(next, id)) && CurrentState(next, id).Ok?
    {
      NothingLeft(next, id, source);
    }
    assert CurrentState(next, id).Ok? by { NothingLeft(next, id, Source("", 0)); }
  }

  /** Interleaved recoveries: however the other recoveries and appends interleave, when the
      append of a recovery is stored, its session is recovered. */
  lemma RecoveryCommits(moves: seq<Move>, recovery: nat)
    requires Commits(Perform(moves), recovery)
    ensures var s := Perform(moves);
      var call := s.recoveries[recovery].call;
      RecoveredFrom(s.system.store, Perform(moves + [Other(Resume(call))]).system.store,
                    s.system.calls[call].session.id)
  {
    hide SessionStore.Play, SessionStore.Next, Perform, Committed, RecoveredFrom, IsRemedyInput, SystemSound;
    var s := Perform(moves);
    var call := s.recoveries[recovery].call;
    var turns := PerformsARun(moves);
    PlayIsSound(turns);
    PerformAppendsRemedies(moves);
    assert InputOf(s.system.calls[call]) == Some(s.system.calls[call].input);
    ChosenIsRemedy(s.recoveries[recovery].path, s.recoveries[recovery].source, s.system.calls[call].input);
    CommitRecovers(s.system, call);
    PerformSnoc(moves, Other(Resume(call)));
  }

  lemma NothingLeft(store: Store, id: string, source: Source)
    requires Stored(store, id) && Stable(PathOf(store, id))
    ensures RecoveredStore(store, id, source) == (store, CurrentState(store, id)) && CurrentState(store, id).Ok?
  {
    hide Run, Scan, RecoveredStore;
    StablePathIsKept(store, id, source);
    StoredPathLoads(store, id);
  }

  lemma PerformSnoc(moves: seq<Move>, move: Move)
    ensures Perform(moves + [move]) == After(Perform(moves), move)
  {
    assert (moves + [move])[..|moves|] == moves;
  }

  // ---------- a recovery nobody interrupts ----------

  /** A recovery found, read and decided without interruption: its append is begun. */
  lemma DecidesAlone(moves: seq<Move>, id: string, source: Source, recovery: nat, call: nat) returns (next: seq<Move>)
    requires var s := Perform(moves);
      recovery !in s.recoveries && call !in s.system.calls && id in s.system.store.sessions
      && s.system.store.sessions[id].id == id
    ensures var s := Perform(moves);
      var input := ChosenFor(s.system.store.sessions[id], EntriesOf(s.system.store, id), source);
      Perform(next) == if input.None? then s.(recoveries := s.recoveries[recovery := Over])
                       else Schedule(SessionStore.Next(s.system, BeginAppend(call, id, input.value)),
                                     s.recoveries[recovery := Appending(call, source,
                                       ReadPath(s.system.store.sessions[id], EntriesOf(s.system.store, id)).value)])
  {
    hide Perform, SessionStore.Next, ChosenFor;
    var begin, resume := BeginRecovery(recovery, id, source), ResumeRecovery(recovery, call);
    var m1 := moves + [begin];
    PerformSnoc(moves, begin);
    var m2 := m1 + [resume];
    PerformSnoc(m1, resume);
    var m3 := m2 + [resume];
    PerformSnoc(m2, resume);
    next := m3 + [resume];
    PerformSnoc(m3, resume);
  }

  /** Performed without interruption, a recovery leaves the store the sequential one leaves. */
  lemma RecoversAlone(moves: seq<Move>, id: string, source: Source, recovery: nat, call: nat) returns (next: seq<Move>)
    requires var s := Perform(moves);
      recovery !in s.recoveries && call !in s.system.calls && id in s.system.store.sessions
      && s.system.store.sessions[id].id == id
    ensures Perform(next).system.store == RecoveredStore(Perform(moves).system.store, id, source).0
  {
    hide Perform, Choice, PathTo, CurrentState, Committed;
    var s := Perform(moves);
    next := DecidesAlone(moves, id, source, recovery, call);
    var input := ChosenFor(s.system.store.sessions[id], EntriesOf(s.system.store, id), source);
    if input.Some? {
      var m1 := next + [Other(Resume(call))];
      PerformSnoc(next, Other(Resume(call)));
      PerformSnoc(m1, Other(Resume(call)));
      next := m1 + [Other(Resume(call))];
    }
  }
}
