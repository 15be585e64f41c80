/** Runs that reach what the session runtime does not handle: a session whose recovery is
    refused, a cached status that is not the projected one, and overlapping recoveries that
    both append, or of which one is refused. */
module RecoveryExamples {
  import opened Wrappers
  import opened Texts
  import opened SessionLedger
  import opened LedgerEffects
  import opened ActivePath
  import opened RecoveryScan
  import opened SessionStore
  import opened SessionRecovery
  import opened RecoverySchedules

  const CREATION := FirstEntry("s", "a", "", 0)
  const CREATE := CreateSession("s", "a", "", 0)
  const CREATED := System(Store(map["s" := Session("s", Active, "a", 0, 0, None)], map["s" := [CREATION]]), map[])
  const NEW_SESSION := INITIAL.(seen := {"a"}, last := Some(1))
  const NO_PAYLOAD := Fields(None, PlainInterruption, None, None, None, None, false, "")

  lemma NotBlank()
    ensures !Blank("s") && !Blank("a") && !Blank("b") && !Blank("c")
  {
    assert !IsSpace("s"[0]) && !IsSpace("a"[0]) && !IsSpace("b"[0]) && !IsSpace("c"[0]);
  }

  lemma CreatedByRun()
    ensures SessionStore.Play([CREATE]) == CREATED
  {
    NotBlank();
    assert [CREATE][..0] == [];
  }

  lemma CreatedIsStored()
    ensures Stored(CREATED.store, "s") && PathOf(CREATED.store, "s") == [CREATION]
  {
    hide SessionStore.Play, Run, RootPath;
    NotBlank();
    CreatedByRun();
    PlayIsSound([CREATE]);
    assert SessionSound("s", CREATED.store.sessions["s"], CREATED.store.entries["s"]);
    assert Tree("s", [CREATION]);
    assert CREATION in [CREATION];
    assert IndexOf([CREATION], "a") == 0;
    assert RootPath([CREATION], 0) == [CREATION] by { RootOfOne(); }
  }

  lemma RootOfOne()
    requires WellFormed([CREATION])
    ensures RootPath([CREATION], 0) == [CREATION]
  {}

  lemma CreationRuns()
    ensures Run([CREATION]) == Ok(NEW_SESSION)
  {
    assert [CREATION][..0] == [];
    assert INITIAL.seen + {"a"} == {"a"};
  }

  /** A new session and one more entry. */
  lemma OneMore(input: Input) returns (turns: seq<Turn>)
    requires input.parent.None? && !Blank(input.id) && input.id != "a"
    requires Step(NEW_SESSION, NewEntry(CREATED.store.sessions["s"], [CREATION], input)).Ok?
    ensures var store, e := SessionStore.Play(turns).store, NewEntry(CREATED.store.sessions["s"], [CREATION], input);
      && "s" in store.sessions && Stored(store, "s") && PathOf(store, "s") == [CREATION, e] && Accepted([CREATION, e])
      && store.entries["s"] == [CREATION, e]
      && Run([CREATION, e]) == Step(NEW_SESSION, e)
  {
    hide SessionStore.Play, Step, AppendedNow, Stored, PathOf;
    CreatedByRun();
    CreatedIsStored();
    CreationRuns();
    turns := AppendsAlone([CREATE], 0, "s", input);
    assert input.id !in Ids([CREATION]);
    AppendSucceedsExactly(CREATED.store, "s", input, [CREATION]);
    var path, e := AppendedPath(CREATED.store, "s", input);
    assert [CREATION, e][..1] == [CREATION] && [CREATION] + [e] == [CREATION, e];
    StoredIsThere(SessionStore.Play(turns).store, "s");
  }

  lemma StoredIsThere(store: Store, id: string)
    requires Stored(store, id)
    ensures id in store.sessions && id in store.entries
  {}

  // ---------- a recovery that is refused ----------

  function WaitingInput(status: RuntimeStatus): Input {
    Input("b", None, ActionProposed, NO_PAYLOAD, NO_META.(actionId := Some("x"), runtimeStatus := status), 1)
  }

  lemma WaitingRuns(status: RuntimeStatus, e: Entry)
    requires e == NewEntry(CREATED.store.sessions["s"], [CREATION], WaitingInput(status))
    ensures var after := Step(NEW_SESSION, e);
      && after.Ok? && after.value.status.Active? && after.value.pending.Some? && after.value.pending.value.kind.Action?
      && !after.value.pending.value.started && e.meta.runtimeStatus == status
  {}

  /** Each of the three runtime statuses that obstruct recovery is reached by a run, and
      recovery then fails, whatever new id and time it uses. */
  lemma RefusedRecoveryExists(status: RuntimeStatus) returns (turns: seq<Turn>)
    requires status.InheritedName? || status.WaitingForPatchApproval? || status.WaitingForCommandApproval?
    ensures var store := SessionStore.Play(turns).store;
      && Stored(store, "s") && Accepted(PathOf(store, "s")) && Obstructed(Projected(PathOf(store, "s")).value)
      && forall source: Source | !Blank(source.id) && source.id !in Ids(store.entries["s"]) ::
           RecoveredStore(store, "s", source).1.Err?
  {
    hide Stored, PathOf, RecoveredStore, SessionStore.Play, Run;
    NotBlank();
    var e := NewEntry(CREATED.store.sessions["s"], [CREATION], WaitingInput(status));
    WaitingRuns(status, e);
    turns := OneMore(WaitingInput(status));
    var store := SessionStore.Play(turns).store;
    StoredIsThere(store, "s");
    assert !StartedUnsettled(Projected(PathOf(store, "s")).value.pending);
    forall source: Source | !Blank(source.id) && source.id !in Ids(store.entries["s"])
      ensures RecoveredStore(store, "s", source).1.Err?
    {
      RecoverySucceedsExactly(store, "s", source);
    }
  }

  // ---------- a cached status that is not the projected one ----------

  const PLAIN_RECOVERY := Input("b", None, RecoveryRequired, NO_PAYLOAD, NO_META, 1)

  lemma PlainRecoveryRuns(e: Entry)
    requires e == NewEntry(CREATED.store.sessions["s"], [CREATION], PLAIN_RECOVERY)
    ensures IsPlainRecovery(e) && Step(NEW_SESSION, e).Ok? && Step(NEW_SESSION, e).value.status.Interrupted?
  {}

  /** A session whose cached status is not that of its path, which projects as interrupted. */
  lemma CachedStatusDiffersExists() returns (turns: seq<Turn>)
    ensures var store := SessionStore.Play(turns).store;
      && Stored(store, "s") && Accepted(PathOf(store, "s"))
      && Run(PathOf(store, "s")).value.status.Interrupted? && !store.sessions["s"].status.Interrupted?
  {
    hide PathOf, SessionStore.Play, Run, Step, Stored, PathTo;
    NotBlank();
    var e := NewEntry(CREATED.store.sessions["s"], [CREATION], PLAIN_RECOVERY);
    PlainRecoveryRuns(e);
    turns := OneMore(PLAIN_RECOVERY);
    var store := SessionStore.Play(turns).store;
    StoredIsThere(store, "s");
    StoredPathLoads(store, "s");
    EveryInterleaving(turns, "s");
  }

  // ---------- two recoveries that overlap ----------

  const OPEN := CREATED.store.sessions["s"]
  const FIRST := Source("b", 1)
  const SECOND := Source("c", 2)

  function Stop(source: Source): Input { Interruption(source, None, None, STOPPED) }

  function StopEntry(source: Source, sequence: int): Entry {
    Entry(source.id, "s", Some("a"), sequence, SessionInterrupted, Stop(source).payload, NO_META, source.now)
  }

  lemma StopIsChosen(source: Source)
    ensures ChosenFor(OPEN, [CREATION], source) == Some(Stop(source)) && ReadPath(OPEN, [CREATION]) == Ok([CREATION])
  {
    hide PathTo;
    CreatedIsStored();
    StoredPathLoads(CREATED.store, "s");
    CreationRuns();
    assert Scan([CREATION]) == [] by { assert [CREATION][..0] == []; }
  }

  lemma StopIsAccepted(source: Source, sequence: int)
    requires source.id != "a" && sequence > 1
    ensures Accepted([CREATION, StopEntry(source, sequence)])
    ensures var t := Run([CREATION, StopEntry(source, sequence)]).value; t.status.Interrupted? && t.completedAt.None?
  {
    hide Run;
    CreationRuns();
    var path := [CREATION, StopEntry(source, sequence)];
    assert path[..1] == [CREATION];
    assert Run(path) == Step(NEW_SESSION, path[1]) by { RunOfTwo(path); }
  }

  lemma RunOfTwo(path: seq<Entry>)
    requires |path| == 2 && Run(path[..1]).Ok?
    ensures Run(path) == Step(Run(path[..1]).value, path[1])
  {}

  const ONCE := Store(map["s" := Session("s", Interrupted, "b", 0, 1, None)],
                      map["s" := [CREATION, StopEntry(FIRST, 2)]])

  lemma FirstCommit()
    ensures Committed(CREATED.store, OPEN, [CREATION], Stop(FIRST)) == (ONCE, Ok(StopEntry(FIRST, 2)))
  {
    hide Run;
    NotBlank();
    CreatedIsStored();
    StopIsAccepted(FIRST, 2);
    CandidateOfStored(CREATED.store, "s", Stop(FIRST), [CREATION]);
    assert [CREATION] + [StopEntry(FIRST, 2)] == [CREATION, StopEntry(FIRST, 2)];
    assert Prepared(OPEN, [CREATION], Stop(FIRST)) == Ok((StopEntry(FIRST, 2), Mutation("b", Interrupted, 1, None)));
    assert CREATED.store.sessions["s" := ONCE.sessions["s"]] == ONCE.sessions;
    assert CREATED.store.entries["s" := ONCE.entries["s"]] == ONCE.entries;
  }

  /** The second commit has read the session before the first one and its entries after it. */
  lemma SecondCommit()
    ensures var (store, result) := Committed(ONCE, OPEN, [CREATION, StopEntry(FIRST, 2)], Stop(SECOND));
            result.Ok? && store.entries == map["s" := [CREATION, StopEntry(FIRST, 2), StopEntry(SECOND, 3)]]
  {
    hide Run, PathTo;
    NotBlank();
    StopIsAccepted(SECOND, 3);
    var all := [CREATION, StopEntry(FIRST, 2)];
    OldLeafLoads(all);
    assert [CREATION] + [StopEntry(SECOND, 3)] == [CREATION, StopEntry(SECOND, 3)];
    assert all + [StopEntry(SECOND, 3)] == [CREATION, StopEntry(FIRST, 2), StopEntry(SECOND, 3)];
  }

  lemma OldLeafLoads(all: seq<Entry>)
    requires all == [CREATION, StopEntry(FIRST, 2)]
    ensures PathTo(all, Some("a")) == Ok([CREATION])
  {
    hide PathTo;
    NotBlank();
    assert HasEarlierParent(all, 0) && HasEarlierParent(all, 1) by { assert all[0].id == "a"; }
    PathIsRootPath(all, 0);
    assert RootPath(all, 0) == [CREATION];
  }

  /** A commit that had read the entries before the first one was stored is refused. */
  lemma LateCommit()
    ensures var (store, result) := Committed(ONCE, OPEN, [CREATION], Stop(SECOND)); result.Err? && store == ONCE
  {
    hide Projected, CandidatePath;
    assert NextSequence(ONCE.entries["s"]) == 3;
  }

  /** Two recoveries of one session have decided, and begun their appends. */
  ghost predicate BothDecided(s: Schedule) {
    && s.recoveries == map[0 := Appending(0, FIRST, [CREATION]), 1 := Appending(1, SECOND, [CREATION])]
    && s.system == System(CREATED.store, map[0 := ReadSession(Stop(FIRST), OPEN), 1 := ReadSession(Stop(SECOND), OPEN)])
  }

  lemma BothDecide() returns (moves: seq<Move>)
    ensures BothDecided(Perform(moves))
  {
    hide Perform, SessionStore.Play, SessionStore.Next, ChosenFor, ReadPath;
    var create: Move := Other(CREATE);
    CreatedByRun();
    assert SessionStore.Next(SessionStore.Play([]), CREATE) == CREATED by {
      SessionStore.PlaySnoc([], CREATE);
      assert [] + [CREATE] == [CREATE];
    }
    assert Perform([]) == Schedule(SessionStore.Play([]), map[]) by { PerformNothing(); }
    PerformSnoc([], create);
    StopIsChosen(FIRST);
    StopIsChosen(SECOND);
    var begun := DecidesAlone([] + [create], "s", FIRST, 0, 0);
    BegunAppend(CREATED, 0, Stop(FIRST));
    moves := DecidesAlone(begun, "s", SECOND, 1, 1);
    BegunAppend(Perform(begun).system, 1, Stop(SECOND));
  }

  /** Two recoveries of one session decide before either appends. When the second reads the
      entries after the first has stored its own, both are stored: the session holds two
      interruptions, where one recovery after the other leaves one. */
  lemma BothRecoveriesAppend() returns (moves: seq<Move>)
    ensures Perform(moves).system.store.entries == map["s" := [CREATION, StopEntry(FIRST, 2), StopEntry(SECOND, 3)]]
    ensures Perform(moves).recoveries
         == map[0 := Appending(0, FIRST, [CREATION]), 1 := Appending(1, SECOND, [CREATION])]
  {
    hide Perform, Committed;
    moves := BothDecide();
    FirstCommit();
    SecondCommit();
    moves := ReadsEntries(moves, 0, Stop(FIRST));
    moves := CommitsRead(moves, 0, Stop(FIRST), [CREATION]);
    moves := ReadsEntries(moves, 1, Stop(SECOND));
    moves := CommitsRead(moves, 1, Stop(SECOND), [CREATION, StopEntry(FIRST, 2)]);
  }

  /** When the second reads the entries before the first has stored its own, it is refused. */
  lemma SecondRecoveryIsRefused() returns (moves: seq<Move>)
    ensures Perform(moves).system.store.entries == map["s" := [CREATION, StopEntry(FIRST, 2)]]
    ensures Perform(moves).recoveries
         == map[0 := Appending(0, FIRST, [CREATION]), 1 := Appending(1, SECOND, [CREATION])]
    ensures 1 in Perform(moves).system.calls && Perform(moves).system.calls[1].Finished?
    ensures Perform(moves).system.calls[1].result.Err?
  {
    hide Perform, Committed;
    moves := BothDecide();
    FirstCommit();
    LateCommit();
    moves := ReadsEntries(moves, 0, Stop(FIRST));
    moves := ReadsEntries(moves, 1, Stop(SECOND));
    moves := CommitsRead(moves, 0, Stop(FIRST), [CREATION]);
    moves := CommitsRead(moves, 1, Stop(SECOND), [CREATION]);
  }

  lemma PerformNothing()
    ensures Perform([]) == Schedule(SessionStore.Play([]), map[])
  {}

  lemma BegunAppend(system: System, call: nat, input: Input)
    requires call !in system.calls && "s" in system.store.sessions
    ensures SessionStore.Next(system, BeginAppend(call, "s", input))
         == system.(calls := system.calls[call := ReadSession(input, system.store.sessions["s"])])
  {}

  /** An append that has read its session reads the entries. */
  lemma ReadsEntries(moves: seq<Move>, call: nat, input: Input) returns (next: seq<Move>)
    requires call in Perform(moves).system.calls && Perform(moves).system.calls[call] == ReadSession(input, OPEN)
    ensures var s := Perform(moves);
      Perform(next) == s.(system := s.system.(calls := s.system.calls[call :=
                            ReadEntries(input, OPEN, EntriesOf(s.system.store, "s"))]))
  {
    hide Perform, Committed;
    next := moves + [Other(Resume(call))];
    PerformSnoc(moves, Other(Resume(call)));
  }

  /** An append that has read the entries commits. */
  lemma CommitsRead(moves: seq<Move>, call: nat, input: Input, all: seq<Entry>) returns (next: seq<Move>)
    requires call in Perform(moves).system.calls && Perform(moves).system.calls[call] == ReadEntries(input, OPEN, all)
    ensures var s := Perform(moves);
      var (store, result) := Committed(s.system.store, OPEN, all, input);
      Perform(next) == s.(system := System(store, s.system.calls[call := Finished(result)]))
  {
    hide Perform, Committed;
    next := moves + [Other(Resume(call))];
    PerformSnoc(moves, Other(Resume(call)));
  }
}
