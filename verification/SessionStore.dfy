/** The in-memory session store, the runtime's append, and every interleaving of
    concurrent appends. */
module SessionStore {
  import opened Wrappers
  import opened Texts
  import opened SessionLedger
  import opened LedgerEffects
  import opened ActivePath

  datatype Session = Session(
    id: string,
    status: Status,
    activeLeafId: string,
    createdAt: int,
    updatedAt: int,
    completedAt: Option<int>)

  datatype Mutation = Mutation(activeLeafId: string, status: Status, updatedAt: int, completedAt: Option<int>)

  datatype Store = Store(sessions: map<string, Session>, entries: map<string, seq<Entry>>)

  datatype StoreError =
    | InvalidRecord | SessionExists | BadFirstEntry | SessionNotFound
    | EntryExists | NotAppendOnly | ParentUnknown
    | PathFailed(path: PathError) | LedgerRefused(ledger: LedgerError)

  predicate ValidEntry(e: Entry) { !Blank(e.id) && !Blank(e.sessionId) && e.sequence >= 1 }

  function NextSequence(entries: seq<Entry>): int {
    if entries == [] then 1 else entries[|entries| - 1].sequence + 1
  }

  predicate Holds(entries: seq<Entry>, id: string) { exists e :: e in entries && e.id == id }

  // ---------- the store ----------

  function Created(store: Store, session: Session, first: Entry): Result<Store, StoreError> {
    if Blank(session.id) || !ValidEntry(first) then Err(InvalidRecord)
    else if session.id in store.sessions then Err(SessionExists)
    else if first.sessionId != session.id || first.sequence != 1 || first.parent.Some? then Err(BadFirstEntry)
    else Ok(Store(store.sessions[session.id := session], store.entries[session.id := [first]]))
  }

  function Appended(store: Store, e: Entry, m: Mutation): Result<Store, StoreError> {
    if !ValidEntry(e) then Err(InvalidRecord)
    else if e.sessionId !in store.sessions || e.sessionId !in store.entries then Err(SessionNotFound)
    else
      var entries, session := store.entries[e.sessionId], store.sessions[e.sessionId];
      if Holds(entries, e.id) then Err(EntryExists)
      else if e.sequence != NextSequence(entries) then Err(NotAppendOnly)
      else if e.parent.Some? && !Holds(entries, e.parent.value) then Err(ParentUnknown)
      else Ok(Store(
                store.sessions[session.id := session.(activeLeafId := m.activeLeafId, status := m.status,
                                                      updatedAt := m.updatedAt, completedAt := m.completedAt)],
                store.entries[e.sessionId := entries + [e]]))
  }

  class InMemorySessionStore {
    var sessions: map<string, Session>
    var entries: map<string, seq<Entry>>

    constructor ()
      ensures Contents() == Store(map[], map[])
    {
      sessions := map[];
      entries := map[];
    }

    ghost function Contents(): Store
      reads this
    {
      Store(sessions, entries)
    }

    method CreateSession(session: Session, first: Entry) returns (error: Option<StoreError>)
      modifies this
      ensures match error
              case None => Created(old(Contents()), session, first) == Ok(Contents())
              case Some(e) => Created(old(Contents()), session, first) == Err(e) && Contents() == old(Contents())
    {
      if Blank(session.id) || !ValidEntry(first) {
        return Some(InvalidRecord);
      }
      if session.id in sessions {
        return Some(SessionExists);
      }
      if first.sessionId != session.id || first.sequence != 1 || first.parent.Some? {
        return Some(BadFirstEntry);
      }
      sessions := sessions[session.id := session];
      entries := entries[session.id := [first]];
      return None;
    }

    method AppendEntry(e: Entry, m: Mutation) returns (error: Option<StoreError>)
      modifies this
      ensures match error
              case None => Appended(old(Contents()), e, m) == Ok(Contents())
              case Some(x) => Appended(old(Contents()), e, m) == Err(x) && Contents() == old(Contents())
    {
      if !ValidEntry(e) {
        return Some(InvalidRecord);
      }
      if e.sessionId !in sessions || e.sessionId !in entries {
        return Some(SessionNotFound);
      }
      var session, stored := sessions[e.sessionId], entries[e.sessionId];
      if Holds(stored, e.id) {
        return Some(EntryExists);
      }
      if e.sequence != NextSequence(stored) {
        return Some(NotAppendOnly);
      }
      if e.parent.Some? && !Holds(stored, e.parent.value) {
        return Some(ParentUnknown);
      }
      entries := entries[e.sessionId := stored + [e]];
      sessions := sessions[session.id := session.(activeLeafId := m.activeLeafId, status := m.status,
                                                  updatedAt := m.updatedAt, completedAt := m.completedAt)];
      return None;
    }

    method GetSession(id: string) returns (session: Option<Session>)
      ensures session == SessionOf(Contents(), id)
    {
      return if id in sessions then Some(sessions[id]) else None;
    }

    method ListEntries(id: string) returns (stored: seq<Entry>)
      ensures stored == EntriesOf(Contents(), id)
    {
      return if id in entries then entries[id] else [];
    }
  }

  function SessionOf(store: Store, id: string): Option<Session> {
    if id in store.sessions then Some(store.sessions[id]) else None
  }

  function EntriesOf(store: Store, id: string): seq<Entry> {
    if id in store.entries then store.entries[id] else []
  }

  // ---------- the runtime's append ----------

  /** What a caller asks to append: `parent` is None when it leaves the parent out. */
  datatype Input = Input(
    id: string,
    parent: Option<Option<string>>,
    kind: EventType,
    payload: Payload,
    meta: Meta,
    createdAt: int)

  /** The status the runtime caches by event type alone. */
  function ExplicitStatus(kind: EventType): Option<Status> {
    if IsMaskingTerminal(kind) then Some(EndStatus(kind))
    else if kind.SessionInterrupted? then Some(Interrupted)
    else if kind.RecoveryRequired? then Some(NeedsRecovery)
    else None
  }

  function CachedStatus(kind: EventType, projected: Status): Status {
    if ExplicitStatus(kind).Some? then ExplicitStatus(kind).value else projected
  }

  function NewEntry(session: Session, all: seq<Entry>, input: Input): Entry {
    Entry(input.id, session.id, if input.parent.None? then Some(session.activeLeafId) else input.parent.value,
          NextSequence(all), input.kind, input.payload, input.meta, input.createdAt)
  }

  /** The path the new entry would end: the active path, or the path to another entry. */
  function CandidatePath(session: Session, all: seq<Entry>, e: Entry): Result<seq<Entry>, StoreError> {
    match PathTo(all, Some(session.activeLeafId))
    case Err(error) => Err(PathFailed(error))
    case Ok(active) =>
      if !ValidEntry(e) then Err(InvalidRecord)
      else if e.parent == Some(session.activeLeafId) then Ok(active + [e])
      else if e.parent.None? || !Holds(all, e.parent.value) then Err(ParentUnknown)
      else match PathTo(all, e.parent)
        case Err(error) => Err(PathFailed(error))
        case Ok(path) => Ok(path + [e])
  }

  /** The entry and the session update an append sends to the store, computed from the
      session and the entries it has read. */
  function Prepared(session: Session, all: seq<Entry>, input: Input): Result<(Entry, Mutation), StoreError> {
    var e := NewEntry(session, all, input);
    match CandidatePath(session, all, e)
    case Err(error) => Err(error)
    case Ok(path) =>
      match Projected(path)
      case Err(error) => Err(LedgerRefused(error))
      case Ok(projection) =>
        Ok((e, Mutation(e.id, CachedStatus(e.kind, projection.status), input.createdAt, projection.completedAt)))
  }

  function Committed(store: Store, session: Session, all: seq<Entry>,
                     input: Input): (Store, Result<Entry, StoreError>) {
    match Prepared(session, all, input)
    case Err(error) => (store, Err(error))
    case Ok((e, m)) =>
      match Appended(store, e, m)
      case Err(error) => (store, Err(error))
      case Ok(next) => (next, Ok(e))
  }

  /** An append nobody interrupts. */
  function AppendedNow(store: Store, sessionId: string, input: Input): (Store, Result<Entry, StoreError>) {
    if SessionOf(store, sessionId).None? then (store, Err(SessionNotFound))
    else Committed(store, SessionOf(store, sessionId).value, EntriesOf(store, sessionId), input)
  }

  class SessionRuntime {
    const store: InMemorySessionStore

    constructor (store: InMemorySessionStore)
      ensures this.store == store
    {
      this.store := store;
    }

    method AppendEntry(sessionId: string, input: Input) returns (result: Result<Entry, StoreError>)
      modifies store
      ensures (store.Contents(), result) == AppendedNow(old(store.Contents()), sessionId, input)
    {
      var session := store.GetSession(sessionId);
      if session.None? {
        return Err(SessionNotFound);
      }
      var all := store.ListEntries(sessionId);
      var active := BuildActivePath(all, Some(session.value.activeLeafId));
      if active.Err? {
        return Err(PathFailed(active.error));
      }
      var e := NewEntry(session.value, all, input);
      if !ValidEntry(e) {
        return Err(InvalidRecord);
      }
      var path := active.value;
      if e.parent != Some(session.value.activeLeafId) {
        if e.parent.None? || !Holds(all, e.parent.value) {
          return Err(ParentUnknown);
        }
        var other := BuildActivePath(all, e.parent);
        if other.Err? {
          return Err(PathFailed(other.error));
        }
        path := other.value;
      }
      var projection := Project(path + [e]);
      if projection.Err? {
        return Err(LedgerRefused(projection.error));
      }
      var m := Mutation(e.id, CachedStatus(e.kind, projection.value.status), input.createdAt,
                        projection.value.completedAt);
      var error := store.AppendEntry(e, m);
      return if error.Some? then Err(error.value) else Ok(e);
    }
  }

  // ---------- what a stored session keeps ----------

  /** The session's entries form a tree that starts with its creation. */
  ghost predicate Tree(sessionId: string, entries: seq<Entry>) {
    WellFormed(entries) && entries[0].kind.SessionCreated?
    && forall e <- entries :: e.sessionId == sessionId
  }

  /** The session points at a stored leaf whose path projects, and caches its status. */
  ghost predicate PointsAtLeaf(session: Session, entries: seq<Entry>)
    requires WellFormed(entries)
  {
    && session.activeLeafId in Ids(entries)
    && var i := IndexOf(entries, session.activeLeafId);
    && Accepted(RootPath(entries, i))
    && session.status == CachedStatus(entries[i].kind, Run(RootPath(entries, i)).value.status)
    && session.completedAt == Run(RootPath(entries, i)).value.completedAt
  }

  ghost predicate SessionSound(id: string, session: Session, entries: seq<Entry>) {
    session.id == id && Tree(id, entries) && PointsAtLeaf(session, entries)
  }

  ghost predicate StoreSound(store: Store) {
    && store.sessions.Keys == store.entries.Keys
    && forall id <- store.sessions :: SessionSound(id, store.sessions[id], store.entries[id])
  }

  lemma CandidateIsRootPath(session: Session, all: seq<Entry>, e: Entry)
    requires WellFormed(all) && session.activeLeafId in Ids(all)
    requires CandidatePath(session, all, e).Ok?
    ensures ValidEntry(e) && e.parent.Some? && e.parent.value in Ids(all)
    ensures CandidatePath(session, all, e).value == RootPath(all, IndexOf(all, e.parent.value)) + [e]
  {
    PathIsRootPath(all, IndexOf(all, session.activeLeafId));
    if e.parent.Some? && e.parent.value in Ids(all) {
      PathIsRootPath(all, IndexOf(all, e.parent.value));
    }
  }

  /** What an append computes from a leaf and a tree it has read. */
  ghost predicate Follows(all: seq<Entry>, e: Entry, m: Mutation)
    requires WellFormed(all)
  {
    && ValidEntry(e) && e.sequence == |all| + 1
    && e.parent.Some? && e.parent.value in Ids(all)
    && m.activeLeafId == e.id
    && var path := RootPath(all, IndexOf(all, e.parent.value)) + [e];
    && Accepted(path)
    && m.status == CachedStatus(e.kind, Run(path).value.status)
    && m.completedAt == Run(path).value.completedAt
  }

  lemma PreparedFollows(session: Session, all: seq<Entry>, input: Input)
    requires Tree(session.id, all) && session.activeLeafId in Ids(all)
    requires Prepared(session, all, input).Ok?
    ensures var (e, m) := Prepared(session, all, input).value; e.sessionId == session.id && Follows(all, e, m)
  {
    hide Run, CandidatePath, RootPath;
    CandidateIsRootPath(session, all, NewEntry(session, all, input));
    assert all[|all| - 1].sequence == |all|;
  }

  /** A new entry that follows the stored ones keeps its session sound. */
  lemma FollowingKeepsSession(before: Session, after: Session, stored: seq<Entry>, e: Entry, m: Mutation)
    requires Tree(before.id, stored) && e.id !in Ids(stored) && e.sessionId == before.id
    requires Follows(stored, e, m)
    requires after == before.(activeLeafId := m.activeLeafId, status := m.status,
                              updatedAt := m.updatedAt, completedAt := m.completedAt)
    ensures SessionSound(before.id, after, stored + [e])
  {
    hide Run;
    WellFormedGrows(stored, e);
    LookupIsEntry(stored + [e], |stored|);
    assert (stored + [e])[|stored|] == e;
    assert e in stored + [e];
  }

  /** A commit computed from entries that are a prefix of the stored ones keeps the
      store sound: the sequence check lets it through only when nothing was added. */
  lemma CommitKeepsSound(store: Store, session: Session, all: seq<Entry>, input: Input)
    requires StoreSound(store) && session.id in store.sessions
    requires all <= store.entries[session.id] && all != [] && session.activeLeafId in Ids(all)
    ensures StoreSound(Committed(store, session, all, input).0)
  {
    hide Run, Prepared, Follows, PointsAtLeaf;
    var (after, result) := Committed(store, session, all, input);
    if result.Ok? {
      var id := session.id;
      var stored := store.entries[id];
      PrefixIsTree(id, all, stored);
      PreparedFollows(session, all, input);
      var (e, m) := Prepared(session, all, input).value;
      assert all == stored by {
        SequenceGuard(all, stored, e, m);
      }
      FollowingKeepsSession(store.sessions[id], after.sessions[id], stored, e, m);
    }
  }

  /** The next sequence number tells whether anything was stored since the read. */
  lemma SequenceGuard(all: seq<Entry>, stored: seq<Entry>, e: Entry, m: Mutation)
    requires all <= stored && all != [] && WellFormed(all) && WellFormed(stored)
    requires Follows(all, e, m) && e.sequence == NextSequence(stored)
    ensures all == stored
  {
    hide Run;
    assert stored[|stored| - 1].sequence == |stored|;
  }

  lemma PrefixIsTree(sessionId: string, all: seq<Entry>, stored: seq<Entry>)
    requires all <= stored && all != [] && Tree(sessionId, stored)
    ensures Tree(sessionId, all)
  {
    forall i | 0 <= i < |all| ensures HasEarlierParent(all, i) {
      assert HasEarlierParent(stored, i);
      if i > 0 {
        var j :| 0 <= j < i && stored[j].id == stored[i].parent.value;
        assert all[j].id == all[i].parent.value;
      }
    }
  }

  // ---------- every interleaving ----------

  /** A concurrent append: each constructor is a point where it may be suspended. */
  datatype Call =
    | ReadSession(input: Input, session: Session)
    | ReadEntries(input: Input, session: Session, all: seq<Entry>)
    | Finished(result: Result<Entry, StoreError>)

  datatype System = System(store: Store, calls: map<nat, Call>)

  /** One atomic step: creating a session, beginning an append (it reads the session),
      or resuming one (it reads the entries, then commits). */
  datatype Turn =
    | CreateSession(sessionId: string, entryId: string, title: string, createdAt: int)
    | BeginAppend(call: nat, sessionId: string, input: Input)
    | Resume(call: nat)

  function FirstEntry(sessionId: string, entryId: string, title: string, createdAt: int): Entry {
    Entry(entryId, sessionId, None, 1, SessionCreated,
          Fields(None, PlainInterruption, None, None, None, None, false, title), NO_META, createdAt)
  }

  function Next(system: System, turn: Turn): System {
    match turn
    case CreateSession(sessionId, entryId, title, createdAt) =>
      var session := Session(sessionId, Active, entryId, createdAt, createdAt, None);
      (match Created(system.store, session, FirstEntry(sessionId, entryId, title, createdAt))
       case Err(_) => system
       case Ok(store) => system.(store := store))
    case BeginAppend(call, sessionId, input) =>
      if call in system.calls then system
      else
        var session := SessionOf(system.store, sessionId);
        var begun := if session.None? then Finished(Err(SessionNotFound)) else ReadSession(input, session.value);
        system.(calls := system.calls[call := begun])
    case Resume(call) =>
      if call !in system.calls then system
      else match system.calls[call]
        case ReadSession(input, session) =>
          system.(calls := system.calls[call := ReadEntries(input, session, EntriesOf(system.store, session.id))])
        case ReadEntries(input, session, all) =>
          var (store, result) := Committed(system.store, session, all, input);
          System(store, system.calls[call := Finished(result)])
        case Finished(_) => system
  }

  function Play(turns: seq<Turn>): System {
    if turns == [] then System(Store(map[], map[]), map[])
    else Next(Play(turns[..|turns| - 1]), turns[|turns| - 1])
  }

  /** What a suspended append has read is still there. */
  ghost predicate CallSound(store: Store, call: Call) {
    match call
    case ReadSession(_, session) =>
      && session.id in store.sessions && session.id in store.entries
      && session.activeLeafId in Ids(store.entries[session.id])
    case ReadEntries(_, session, all) =>
      && session.id in store.sessions && session.id in store.entries
      && all <= store.entries[session.id] && all != []
      && session.activeLeafId in Ids(all)
    case Finished(_) => true
  }

  ghost predicate SystemSound(system: System) {
    && StoreSound(system.store)
    && forall call <- system.calls :: CallSound(system.store, system.calls[call])
  }

  /** Entries are only added. */
  ghost predicate Grows(before: Store, after: Store) {
    && before.sessions.Keys <= after.sessions.Keys
    && forall id <- before.entries :: id in after.entries && before.entries[id] <= after.entries[id]
  }

  lemma NextGrows(system: System, turn: Turn)
    requires system.store.sessions.Keys == system.store.entries.Keys
    requires forall id <- system.store.sessions :: system.store.sessions[id].id == id
    ensures Grows(system.store, Next(system, turn).store)
  {
    hide Run, Prepared;
  }

  lemma CallStaysSound(before: Store, after: Store, call: Call)
    requires CallSound(before, call) && Grows(before, after)
    ensures CallSound(after, call)
  {
    if call.ReadSession? {
      var id := call.session.id;
      var e :| e in before.entries[id] && e.id == call.session.activeLeafId;
      assert e in after.entries[id];
    }
  }

  lemma CreationIsSound(session: Session, first: Entry)
    requires first.kind.SessionCreated? && first.sequence == 1 && first.parent.None?
    requires ValidEntry(first) && first.sessionId == session.id
    requires session.activeLeafId == first.id && session.status.Active? && session.completedAt.None?
    ensures SessionSound(session.id, session, [first])
  {
    hide Run;
    assert HasEarlierParent([first], 0);
    FirstPathProjects(first);
    LookupIsEntry([first], 0);
  }

  lemma FirstPathProjects(first: Entry)
    requires first.kind.SessionCreated?
    ensures Run([first]).Ok? && Run([first]).value.status.Active? && Run([first]).value.completedAt.None?
  {
    assert [first][..0] == [];
  }

  lemma {:induction false} PlayIsSound(turns: seq<Turn>)
    ensures SystemSound(Play(turns))
  {
    if turns != [] {
      var system, turn := Play(turns[..|turns| - 1]), turns[|turns| - 1];
      PlayIsSound(turns[..|turns| - 1]);
      NextIsSound(system, turn);
    }
  }

  lemma StoredSession(id: string, session: Session, entries: seq<Entry>)
    requires SessionSound(id, session, entries)
    ensures session.id == id && entries != [] && session.activeLeafId in Ids(entries)
  {
    hide Run;
  }

  lemma NextIsSound(system: System, turn: Turn)
    requires SystemSound(system)
    ensures SystemSound(Next(system, turn))
  {
    hide Run, Prepared, PointsAtLeaf, Tree;
    var next := Next(system, turn);
    assert forall id <- system.store.sessions :: system.store.sessions[id].id == id;
    NextGrows(system, turn);
    match turn {
      case CreateSession(sessionId, entryId, title, createdAt) =>
        var session := Session(sessionId, Active, entryId, createdAt, createdAt, None);
        var first := FirstEntry(sessionId, entryId, title, createdAt);
        if Created(system.store, session, first).Ok? { CreationIsSound(session, first); }
      case BeginAppend(call, sessionId, input) =>
        if sessionId in system.store.sessions {
          StoredSession(sessionId, system.store.sessions[sessionId], system.store.entries[sessionId]);
        }
      case Resume(call) =>
        if call in system.calls && system.calls[call].ReadEntries? {
          var c := system.calls[call];
          CommitKeepsSound(system.store, c.session, c.all, c.input);
        }
    }
    forall c | c in next.calls ensures CallSound(next.store, next.calls[c]) {
      if c in system.calls {
        CallStaysSound(system.store, next.store, system.calls[c]);
      }
    }
  }

  lemma PlaySnoc(turns: seq<Turn>, turn: Turn)
    ensures Play(turns + [turn]) == Next(Play(turns), turn)
  {
    assert (turns + [turn])[..|turns|] == turns;
  }

  /** An append whose three steps nothing interrupts does what the uninterrupted one does. */
  lemma AppendsAlone(turns: seq<Turn>, call: nat, id: string, input: Input) returns (next: seq<Turn>)
    requires call !in Play(turns).calls && id in Play(turns).store.sessions
    ensures Play(next).store == AppendedNow(Play(turns).store, id, input).0
    ensures Play(next).calls == Play(turns).calls[call := Finished(AppendedNow(Play(turns).store, id, input).1)]
  {
    hide Play, Committed, SystemSound;
    var system := Play(turns);
    PlayIsSound(turns);
    SoundSession(system, id);
    var t1 := turns + [BeginAppend(call, id, input)];
    PlaySnoc(turns, BeginAppend(call, id, input));
    var t2 := t1 + [Resume(call)];
    PlaySnoc(t1, Resume(call));
    next := t2 + [Resume(call)];
    PlaySnoc(t2, Resume(call));
  }

  lemma SoundSession(system: System, id: string)
    requires SystemSound(system) && id in system.store.sessions
    ensures system.store.sessions[id].id == id && id in system.store.entries
  {
    hide SessionSound;
    StoredSession(id, system.store.sessions[id], system.store.entries[id]);
  }

  /** A recovery that does not ask for a new approval. */
  predicate IsPlainRecovery(e: Entry) { e.kind.RecoveryRequired? && !IsReapproval(e) }

  /** The cached status differs from the projected one for exactly one kind of leaf. */
  lemma CachedStatusExact(path: seq<Entry>)
    requires Accepted(path)
    ensures var e, projected := path[|path| - 1], Run(path).value.status;
            CachedStatus(e.kind, projected) != projected <==> IsPlainRecovery(e)
  {
    hide Run, Step;
    var s, t := LastEffect(path);
    CachedStatusStep(s, path[|path| - 1], t);
  }

  lemma CachedStatusStep(s: State, e: Entry, t: State)
    requires Effect(s, e, t)
    ensures CachedStatus(e.kind, t.status) != t.status <==> IsPlainRecovery(e)
  {}

  /** Every interleaving of session creations and concurrent appends leaves each session
      with contiguous sequences, unique ids and earlier parents; an active path that is
      found, runs from the root to the leaf by parent links and projects; and a cached
      status that is the projected one unless the leaf is a recovery without a
      reapproval reason. */
  lemma EveryInterleaving(turns: seq<Turn>, id: string)
    requires id in Play(turns).store.sessions
    ensures id in Play(turns).store.entries
    ensures var session, entries := Play(turns).store.sessions[id], Play(turns).store.entries[id];
      && WellFormed(entries)
      && PathTo(entries, Some(session.activeLeafId)).Ok?
      && var path := PathTo(entries, Some(session.activeLeafId)).value;
      && Accepted(path) && Linked(path)
      && path[0] == entries[0] && path[|path| - 1].id == session.activeLeafId
      && (session.status != Run(path).value.status <==> IsPlainRecovery(path[|path| - 1]))
      && session.completedAt == Run(path).value.completedAt
  {
    hide Run, Next, PathTo, CachedStatus;
    PlayIsSound(turns);
    var store := Play(turns).store;
    assert SessionSound(id, store.sessions[id], store.entries[id]);
    var entries := store.entries[id];
    var i := IndexOf(entries, store.sessions[id].activeLeafId);
    PathIsRootPath(entries, i);
    RootPathShape(entries, i);
    CachedStatusExact(RootPath(entries, i));
  }
}
