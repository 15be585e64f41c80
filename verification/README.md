# KerniQ governance: a verified model

KerniQ lets agents act only under governance: an action is proposed, approved by a person,
decided by policy, dispatched once, and settled; what happened is kept in event logs, exported,
and checked again by readers. This project models that machinery in Dafny and proves what every
run of it keeps. Concurrency is modelled as the code has it: every stretch of code between two
awaits is one atomic step, and any number of calls interleave; hooks, handlers, deciders and
system calls may fail at any step.

`dafny verify dfyconfig.toml` checks everything.

## The parts

- **Session ledger.** `SessionLedger` is the projector: a state machine over about thirty event
  types, as a fold and as the loop that updates its fields. `LedgerEffects` and `LedgerTotals`
  say what each accepted entry does, `LedgerAuthority` proves authorisation, no replay and
  conservation over whole ledgers. `ActivePath` is the walk from a leaf to the root,
  `SessionStore` the in-memory store and the runtime's append under every interleaving,
  `RecoveryScan` and `SessionRecovery` the restart recovery service, with the exact condition
  under which it succeeds; `RecoverySchedules` interleaves recoveries with each other and with
  appends, `OverlappingRecoveries` says exactly which of them are stored, and `RecoveryExamples`
  holds runs that reach the failing cases.
- **Action runtime.** `ActionRuntime` is the transition system with a program counter for each
  execution and a trace of hook and handler calls; `ActionService` is the class whose methods are
  its segments; `ActionAuthority`, `ActionSettlement` and `ActionOutcomes` are its guarantees,
  and `SharedReceipts` says what is left of them when receipts repeat.
- **Coding packs.** `Utf8Order`, `CanonicalJson` and `CanonicalRoundTrip` are byte order,
  canonical JSON and its left inverse; `PathOrder` and `CandidatePaths` sorting, collisions and
  the path digest; `PackSelection` the read plan and the bounded greedy selection;
  `SelectionGuarantees`, `ReadPlans` and `PackVerification` their guarantees, up to manifests
  and previews; `PreviewConfirmation` binds a confirmation to its preview.
- **Operation store.** `OperationStore`, `OperationRuns` and `OperationService`: an event log
  with a cached record, read back and cross-checked, with racing confirmations and decisions.
- **Atomic export.** `ExportDisk` is a directory tree whose system calls may fail, be cut short,
  or list too little; `ExportCleanup`, `BundleExport` and `BundleWriter` are the export on it.
- **One-use permit.** `PermitProtocol` and `GovernedFunction` are the governed function of the
  Microsoft Agent Framework adapter under every schedule of tasks; `EvidenceDocument` and
  `EvidenceProjection` its evidence and the conformance check.
- **External validation.** `ArchiveValues` and `ArchiveLifecycle` qualify an archive of events;
  `ArchiveValidation` is the whole validation, from envelopes to the mapped evidence;
  `CanonicalValues` and `ArtifactVerifier` are the artifact and its verification, and
  `ArchiveReplay` is the way from a validation to an artifact and back.

SHA-256 is a function given as a parameter, collision-free where identity is claimed. Time is an
integer and identifiers are opaque.

## What the code does not do

Where a natural claim fails, the model keeps the code; a lemma gives a run that shows it, and
another says exactly when the claim holds.

- A second outcome for one receipt is refused by throwing after Running was entered, so an
  action whose receipt repeats can stay in Running for good (`StuckInRunningExists`,
  `RejectedRunsForever`). Two routes lead there, the return of the settlement hook
  (packages/action-runtime/src/runtime.ts:259-276) and a handler result that fails its checks
  (packages/action-runtime/src/runtime.ts:249-262, 341-363), and no others
  (`RejectedInRunningExactly`, `SettlesExactlyOnNewReceipt`, `RefusedResultExactlyOnNewReceipt`);
  over whole runs it happens exactly to the actions whose receipt has another action's outcome
  (`StartedActionsExactly`).
- Restart recovery throws when the last runtime status obstructs its remedy
  (`RefusedRecoveryExists`, `RecoverySucceedsExactly`).
- Recovering twice appends once (`RecoveringTwice`), but two recoveries that decided on one path
  can both append (`BothRecoveriesAppend`), and need not (`SecondRecoveryIsRefused`). The second
  is stored exactly when it reads the entries after the first was stored, and had read the session
  before that, or interrupts, or asks for an approval with nothing pending (`TwoRecoveries`; for
  any schedule, `BeginsExactly` and `RemedyStoredExactly`). Each leaves a recovered session
  (`RecoveryCommits`).
- The cached session status is not the projected one at a recovery without a reapproval reason
  (`CachedStatusDiffersExists`, `CachedStatusExact`).
- The writer of a confirmation does not compare the approval with the creation time of the
  proposal, and the writer of a proposal does not compare fingerprints with the registered
  destination; the reader does both, so such operations are stored and cannot be read
  (`BackdatedApprovalExists`, `OtherFingerprintExists`, `GetExactly`).
- A decision that is neither allow nor block is recorded before it is refused; the closed record
  then projects to a document the conformance check refuses. So does a record with a blank
  identifier (`RefusedDocumentsExist`, `OtherActionDoesNotProject`, `ClosedProjectsExactly`).
- An artifact of a source without a digest is built, but never verifies
  (`UndigestedIsNeverVerified`, `ArtifactVerifiesExactly`).
- The artifact module documents that integers are its only numbers; its parser also accepts
  fractions that are written as the interpreter writes them (`NumbersAreJson`).
- The comment at python/kerniq_external_validation/validator.py:214 speaks of a refused ancestry;
  the branch it stands in runs when the envelopes were refused, and opaque carriers are not
  reported when the ancestry is. The model follows the code.
- The pattern for digests in the conformance check ends in a dollar sign, which also lets one line
  end pass after the 64 hexadecimal digits; the model does too.

## Model

| member | source | states |
|---|---|---|
| `SessionLedger.Project` | packages/session-runtime/src/projector.ts:14-325 | the projector loop over a mutable state accepts or refuses a ledger, with the same error, as the fold of single steps does, and returns the projection of the last state |
| `SessionLedger.RunFailsForward` | packages/session-runtime/src/projector.ts:32-40 | a ledger refused at one entry is refused, with that error, however it goes on |
| `SessionLedger.PrefixAccepted` | packages/session-runtime/src/projector.ts:32-40 | every prefix of an accepted ledger is accepted |
| `LedgerEffects.StepEffect` | packages/session-runtime/src/projector.ts:32-306 | every accepted entry, of any of the event types, finds and leaves the pending record, the used ids, the order and the status as its class allows |
| `LedgerEffects.RunIsSound` | packages/session-runtime/src/projector.ts:14-325 | the inductive invariant of the ledger state holds after every accepted ledger |
| `LedgerTotals.TotalsExactly` | packages/session-runtime/src/projector.ts:14-325 | in every accepted ledger the counters are the numbers of entries of each type, it is completed, at the time of its last entry, exactly when its status is terminal, a recovery requirement agrees with the status, and the last command result is that of the latest completed command |
| `LedgerAuthority.FrozenAcceptsExactly` | packages/session-runtime/src/projector.ts:223-306 | after an interruption over a started action, an entry is accepted if and only if it is harmless and has a new id and a later sequence |
| `LedgerAuthority.InterruptionFreezes` | packages/session-runtime/src/projector.ts:264-272 | an interruption over a started action freezes that action |
| `LedgerAuthority.FrozenForever` | packages/session-runtime/src/projector.ts:361-368 | a frozen state stays frozen, with the same action and receipt, along every accepted extension |
| `LedgerAuthority.NoReplay` | packages/session-runtime/src/projector.ts:264-306 | no entry after an interruption over an unsettled start approves, decides, denies, restarts, settles, completes recovery, proposes, or ends the session |
| `LedgerAuthority.Conservation` | packages/session-runtime/src/projector.ts:164-219 | on every accepted ledger, starts minus settlements is 0 or 1, and 1 exactly when the pending action is started |
| `LedgerAuthority.Authorised` | packages/session-runtime/src/projector.ts:62-192 | every start is covered by an approval of its action, kind, id and generation, given after the latest proposal and not taken away since; and a start of an action or a command also by an allow decision with its decision id, made under an approval whose id and generation the decision repeats, for the proposed task and, for commands, the proposal digest: the approval the start carries, unless a recovery or interruption took that one away |
| `LedgerAuthority.StaleApprovalNeverStarts` | packages/session-runtime/src/projector.ts:223-272 | an approval given before a recovery or an interruption never authorises a start after it |
| `LedgerAuthority.ApprovalIdsDistinct` | packages/session-runtime/src/projector.ts:62-89 | an approval id is accepted once in a ledger |
| `LedgerAuthority.DecisionIdsDistinct` | packages/session-runtime/src/projector.ts:90-152 | a decision id is accepted once in a ledger |
| `RecoveryScan.FindUnmatchedStartedAction` | packages/session-runtime/src/recovery.ts:115-144 | the scan that mutates a map of records returns what the declarative scan of the path finds first |
| `RecoveryScan.TwoScansAgree` | packages/session-runtime/src/recovery.ts:115-144 | on every accepted path the recovery scan finds an action exactly when the projected pending action is started, names the same one, reports no masking terminal, and reports an earlier interruption exactly when SESSION_INTERRUPTED follows the start |
| `RecoveryScan.MaskingTerminalFound` | packages/session-runtime/src/recovery.ts:115-144 | a reported masking terminal lies on the path, and the scan of what precedes it still holds the action |
| `ActivePath.IndexById` | packages/session-runtime/src/runtime.ts:201-204 | the index of entries by id maps each id to the last entry that has it |
| `ActivePath.Reverse` | packages/session-runtime/src/runtime.ts:214-215 | reversing in place |
| `ActivePath.BuildActivePath` | packages/session-runtime/src/runtime.ts:201-216 | the cursor walk with its set of seen ids returns the path to the leaf, or reports the same missing entry or cycle as the recursive ascent |
| `ActivePath.PathIsRootPath` | packages/session-runtime/src/runtime.ts:201-216 | on a well-formed tree the walk reports no cycle and no missing entry: it is the chain of parents from the root |
| `ActivePath.RootPathShape` | packages/session-runtime/src/runtime.ts:201-216 | that chain runs from the root to the entry by parent links with increasing sequences |
| `ActivePath.RootPathPrefix` | packages/session-runtime/src/runtime.ts:201-216 | what precedes an entry on a path is that entry's own path |
| `ActivePath.RootPathGrows` | packages/session-runtime/src/runtime.ts:201-216 | storing another entry changes no earlier path |
| `ActivePath.WellFormedGrows` | packages/session-runtime/src/in-memory-store.ts:41-54 | an entry with the next sequence, a new id and a stored parent keeps the tree well-formed |
| `SessionStore.InMemorySessionStore.CreateSession` | packages/session-runtime/src/in-memory-store.ts:30-39 | creating a session stores it and its first entry, or refuses a known id, and changes nothing else |
| `SessionStore.InMemorySessionStore.AppendEntry` | packages/session-runtime/src/in-memory-store.ts:41-54 | the guarded append: refused unless session, sequence and id fit; otherwise one entry and the mutation are stored |
| `SessionStore.SessionRuntime.AppendEntry` | packages/session-runtime/src/runtime.ts:79-116 | one call of append with no other between its awaits: it prepares on what it read and commits, or fails without a change |
| `SessionStore.CommitKeepsSound` | packages/session-runtime/src/runtime.ts:79-116 | a commit of what any call prepared, however long ago, keeps the store sound |
| `SessionStore.SequenceGuard` | packages/session-runtime/src/in-memory-store.ts:41-54 | an entry numbered after one read fits the stored entries only if nothing was stored since |
| `SessionStore.PlayIsSound` | packages/session-runtime/src/runtime.ts:79-116 | the store invariant holds after every interleaving of creations and of the two halves of appends |
| `SessionStore.CachedStatusExact` | packages/session-runtime/src/runtime.ts:100-114 | the cached status differs from the projected one exactly when the leaf is a recovery without a reapproval reason |
| `SessionStore.AppendsAlone` | packages/session-runtime/src/runtime.ts:79-116 | an append whose three steps nothing interrupts does what one uninterrupted call does |
| `SessionStore.EveryInterleaving` | packages/session-runtime/src/runtime.ts:79-116 | in every interleaving: contiguous sequences, unique ids, earlier parents; an active path that exists, is a root-to-leaf chain and projects; and the exact cached status |
| `SessionRecovery.SessionRecoveryService.RecoverSession` | packages/session-runtime/src/recovery.ts:41-112 | the recovery operation: what it appends to the store and what it returns, in every branch |
| `SessionRecovery.AppendedPath` | packages/session-runtime/src/runtime.ts:79-116 | the path after an append is the parent's path and the new entry |
| `SessionRecovery.AppendSucceedsExactly` | packages/session-runtime/src/runtime.ts:79-116 | an append of a new id under a stored parent succeeds if and only if the projector accepts the entry after the parent's path |
| `SessionRecovery.HiddenPrefix` | packages/session-runtime/src/recovery.ts:60-85 | the prefix before a masking terminal is the path of that terminal's parent |
| `SessionRecovery.RecoveringTwice` | packages/session-runtime/src/recovery.ts:41-112 | after a successful recovery, a second one appends nothing and returns the same projection |
| `SessionRecovery.RepairsHiddenStart` | packages/session-runtime/src/recovery.ts:41-112 | when a terminal hides a started action and the prefix before it projects, recovery forks before it, keeps all entries, and leaves the session interrupted with that action started |
| `SessionRecovery.RecoverySucceedsExactly` | packages/session-runtime/src/recovery.ts:41-112 | on a path that projects, recovery succeeds if and only if a started action is unmatched or the last runtime status does not obstruct the remedy |
| `RecoverySchedules.PerformsARun` | packages/session-runtime/src/runtime.ts:150-154 | to the store, any schedule of recoveries, appends and creations is a run of appends and creations |
| `RecoverySchedules.SchedulesAreSound` | packages/session-runtime/src/runtime.ts:150-154 | however recoveries and appends interleave, every session keeps its tree, a path that projects, and its cached status |
| `RecoverySchedules.RecoveryCommits` | packages/session-runtime/src/recovery.ts:41-112 | however recoveries and appends interleave, when the append of a recovery is stored its session has gained exactly that entry, its path ends with it, and a recovery started then appends nothing |
| `RecoverySchedules.RecoversAlone` | packages/session-runtime/src/recovery.ts:41-112 | a recovery whose steps nothing interrupts leaves the store the one call leaves |
| `OverlappingRecoveries.CommitsExactly` | packages/session-runtime/src/runtime.ts:79-116 | what an append has computed from a session and entries it read is stored if and only if its id is new, nothing was stored since it read the entries, its parent (the leaf it read, or the one it names) is one of them, and the ledger goes on with its entry after that parent |
| `OverlappingRecoveries.BeginsExactly` | packages/session-runtime/src/recovery.ts:41-112 | in every schedule, a recovery that has read a session and its entries has read a path that projects, and begins an append if and only if a started action is on it that no interruption follows, or, with nothing started, the session is open and its last runtime status is absent or one that recovery knows; otherwise it is over |
| `OverlappingRecoveries.RemedyStoredExactly` | packages/session-runtime/src/recovery.ts:41-112 | in every schedule, the append of a recovery that is about to commit is stored if and only if its id is new, nothing was stored in the session since it read the entries, and the ledger at the leaf it had read before takes its remedy |
| `OverlappingRecoveries.TwoRecoveries` | packages/session-runtime/src/recovery.ts:41-112 | two recoveries decided on one path, and the remedy of the first is stored after it: whatever else moves in between, if the session gains nothing more then that of the second is stored if and only if its id is new, it reads the entries after that of the first was stored, and it read the session before, or its remedy interrupts, or it asks for an approval while nothing is pending |
| `RecoveryExamples.RefusedRecoveryExists` | packages/session-runtime/src/recovery.ts:68-94 | for each of the three obstructing runtime statuses, a run stores a session whose recovery fails |
| `RecoveryExamples.CachedStatusDiffersExists` | packages/session-runtime/src/runtime.ts:100-114 | a run stores a session that projects as interrupted and caches another status |
| `RecoveryExamples.BothRecoveriesAppend` | packages/session-runtime/src/recovery.ts:41-112 | a run in which two recoveries decide before either appends and both are stored: one session ends with two interruptions |
| `RecoveryExamples.SecondRecoveryIsRefused` | packages/session-runtime/src/recovery.ts:41-112 | a run of the same two recoveries in which the second reads the entries before the first is stored, and is refused |
| `ActionAuthority.OpIsSound` | packages/action-runtime/src/runtime.ts:114-277 | every segment of an execution between two awaits keeps the trace invariant |
| `ActionAuthority.PlayIsSound` | packages/action-runtime/src/runtime.ts:50-277 | the trace invariant holds after every interleaving of approve, execute, cancel and failing hooks |
| `ActionAuthority.HandlerIsAuthorised` | packages/action-runtime/src/runtime.ts:114-226 | whenever the handler is entered, the trace holds before it, in order, a successful approval hook, an accepted allow decision, its successful persistence hook and a successful dispatch barrier for the same action, and the captured approval was unexpired at the last check |
| `ActionAuthority.HandlersAreUnique` | packages/action-runtime/src/runtime.ts:91-96 | the handler of an action is entered at most once, and no two entries share a decision id |
| `ActionSettlement.StatesFollowTable` | packages/action-runtime/src/state-machine.ts:4-29 | in every interleaving each action's states follow the transition table |
| `ActionSettlement.TerminalAbsorbs` | packages/action-runtime/src/state-machine.ts:4-33 | a terminal state is never left and the handler is not entered after it |
| `ActionSettlement.CancelBeforeRunning` | packages/action-runtime/src/runtime.ts:98-107 | a cancel that takes effect before Running keeps the handler from ever running |
| `ActionOutcomes.LeavingRunningRecordsOutcome` | packages/action-runtime/src/runtime.ts:219-276 | with distinct receipts, an action that left Running has exactly one recorded outcome for its receipt, and is Interrupted exactly when settlement failed |
| `ActionOutcomes.OutcomesAreKept` | packages/action-runtime/src/runtime.ts:307-315 | a recorded terminal outcome is never replaced |
| `ActionOutcomes.SettlesExactlyOnNewReceipt` | packages/action-runtime/src/runtime.ts:259-276 | whatever the settlement hook answers, the action leaves Running then if and only if its receipt has no outcome yet |
| `ActionOutcomes.RejectedRunsForever` | packages/action-runtime/src/runtime.ts:307-315 | an execution whose settlement was rejected for a repeated receipt leaves the action in Running for good |
| `SharedReceipts.RefusedResultExactlyOnNewReceipt` | packages/action-runtime/src/runtime.ts:341-363 | when the result of a handler fails its checks, the action leaves Running, interrupted, if and only if its receipt has no outcome yet |
| `SharedReceipts.RejectedInRunningExactly` | packages/action-runtime/src/runtime.ts:249-276 | an execution is rejected while Running if and only if its receipt has an outcome and either the settlement hook returns or the result of the handler fails its checks |
| `SharedReceipts.StartedActionsExactly` | packages/action-runtime/src/runtime.ts:219-276 | in every run, whatever the receipts: a started action is under way without an outcome of its own, or has ended as its own outcome says, or is stuck in Running, which is so if and only if the outcome under its receipt is another action's |
| `SharedReceipts.StuckInRunningExists` | packages/action-runtime/src/runtime.ts:192-226 | two runs, one for each route, in which an action with a shared receipt stays Running whatever follows |
| `ActionService.ActionRuntimeService.Propose` | packages/action-runtime/src/runtime.ts:50-71 | proposing: the fields after this segment are those of the transition system |
| `ActionService.ActionRuntimeService.BeginApprove` | packages/action-runtime/src/runtime.ts:73-85 | approving, up to the approval hook: the fields after this segment are those of the transition system |
| `ActionService.ActionRuntimeService.EndApprove` | packages/action-runtime/src/runtime.ts:86-88 | approving, after the hook: the fields after this segment are those of the transition system |
| `ActionService.ActionRuntimeService.Execute` | packages/action-runtime/src/runtime.ts:91-142 | executing, up to the first await: the fields after this segment are those of the transition system |
| `ActionService.ActionRuntimeService.AfterDecide` | packages/action-runtime/src/runtime.ts:139-166 | executing, after the decision provider: the fields after this segment are those of the transition system |
| `ActionService.ActionRuntimeService.AfterDecisionHook` | packages/action-runtime/src/runtime.ts:160-209 | executing, after decision persistence: the fields after this segment are those of the transition system |
| `ActionService.ActionRuntimeService.AfterDispatchHook` | packages/action-runtime/src/runtime.ts:204-226 | executing, after the dispatch barrier: the fields after this segment are those of the transition system |
| `ActionService.ActionRuntimeService.AfterHandler` | packages/action-runtime/src/runtime.ts:219-262 | executing, after the handler: the fields after this segment are those of the transition system |
| `ActionService.ActionRuntimeService.AfterSettlementHook` | packages/action-runtime/src/runtime.ts:259-276 | executing, after the settlement hook: the fields after this segment are those of the transition system |
| `ActionService.ActionRuntimeService.FailClosedDecision` | packages/action-runtime/src/runtime.ts:317-339 | failing closed: the fields after this segment are those of the transition system |
| `ActionService.ActionRuntimeService.InterruptAfterSettlementFailure` | packages/action-runtime/src/runtime.ts:341-375 | interrupting after a settlement failure: the fields after this segment are those of the transition system |
| `ActionService.ActionRuntimeService.Cancel` | packages/action-runtime/src/runtime.ts:98-107 | cancelling: the fields after this segment are those of the transition system |
| `Utf8Order.RequireWellFormed` | packages/coding-pack-runtime/src/canonical.ts:17-37 | the index loop accepts a string exactly when every surrogate is in a pair |
| `Utf8Order.CompareUtf8` | packages/coding-pack-runtime/src/canonical.ts:39-50 | the byte loop returns the first difference of the UTF-8 forms, or of their lengths, and refuses ill-formed strings |
| `Utf8Order.CompareIsCodePointOrder` | packages/coding-pack-runtime/src/canonical.ts:39-50 | on well-formed strings its sign is the code-point order, and it is 0 only for equal strings |
| `Utf8Order.EncodedOrder` | packages/coding-pack-runtime/src/canonical.ts:39-50 | UTF-8 keeps the lexicographic order of scalar values |
| `Utf8Order.BelowTransitive` | packages/coding-pack-runtime/src/canonical.ts:39-50 | byte order is transitive |
| `Utf8Order.BelowTotal` | packages/coding-pack-runtime/src/canonical.ts:39-50 | byte order is total and asymmetric on well-formed strings |
| `Utf8Order.Utf16OrderDiffers` | packages/coding-pack-runtime/src/canonical.ts:76-81 | byte order is not the code-unit order of JavaScript |
| `CanonicalRoundTrip.ParsePlain` | packages/coding-pack-runtime/src/canonical.ts:52-81 | a parser undoes the text of a value, whatever follows it |
| `CanonicalRoundTrip.ParseUndoesCanonical` | packages/coding-pack-runtime/src/canonical.ts:52-81 | the parser recovers every accepted value from its canonical text, up to key order |
| `CanonicalRoundTrip.CanonicalIdentifiesValues` | packages/coding-pack-runtime/src/canonical.ts:52-81 | two values have one canonical text if and only if they are the same JSON value |
| `CanonicalRoundTrip.CanonicalIsStable` | packages/coding-pack-runtime/src/canonical.ts:52-81 | parsing a canonical text and rendering it again gives it back |
| `CanonicalRoundTrip.SortingKeeps` | packages/coding-pack-runtime/src/canonical.ts:76-81 | sorting keys changes only their order, which becomes strictly increasing |
| `CanonicalRoundTrip.OrderedUnique` | packages/coding-pack-runtime/src/canonical.ts:76-81 | values with sorted keys and the same meaning are the same |
| `CanonicalRoundTrip.PlainWellFormed` | packages/coding-pack-runtime/src/canonical.ts:98-100 | a canonical text can be encoded as UTF-8 |
| `CanonicalRoundTrip.DigestIdentifiesValues` | packages/coding-pack-runtime/src/canonical.ts:98-100 | with a collision-free hash, digests of values agree if and only if the values do |
| `CandidatePaths.AssertNoPortablePathCollisions` | packages/coding-pack-runtime/src/selection-result.ts:169-203 | the loop over a set and two maps returns the first refusal, and none if and only if all paths differ exactly, case-folded and normalised |
| `CandidatePaths.CollisionIsPairwise` | packages/coding-pack-runtime/src/selection-result.ts:169-203 | refusing path by path is refusing any colliding pair |
| `CandidatePaths.PairwiseDistinctPermutes` | packages/coding-pack-runtime/src/selection-result.ts:169-203 | collision freedom does not depend on order |
| `CandidatePaths.ComputeCandidatePathsDigest` | packages/coding-pack-runtime/src/identity.ts:47-62 | validating, sorting and comparing neighbours refuses exactly invalid and repeated paths, and digests the rest |
| `CandidatePaths.PathsDigestPermutes` | packages/coding-pack-runtime/src/identity.ts:47-62 | the digest does not depend on the order of the paths |
| `CandidatePaths.PathsDigestIdentifies` | packages/coding-pack-runtime/src/identity.ts:47-62 | with a collision-free hash, lists have one digest if and only if they hold the same paths |
| `CandidatePaths.PathsDigestExists` | packages/coding-pack-runtime/src/identity.ts:47-62 | a digest exists if and only if all paths are valid and distinct |
| `PathOrder.SortUnique` | packages/coding-pack-runtime/src/selection.ts:262-264 | things with distinct paths have one sorted order, whatever their order before |
| `PathOrder.AscendingUnique` | packages/coding-pack-runtime/src/identity.ts:50-52 | there is one ascending arrangement of a bag of paths |
| `PackSelection.CompleteSelection` | packages/coding-pack-runtime/src/selection.ts:286-391 | the two loops with running totals yield the declarative selection, or its error |
| `PackSelection.Greedy` | packages/coding-pack-runtime/src/selection.ts:344-361 | the second loop accepts and excludes by the limits as the recursive definition does |
| `SelectionGuarantees.SelectionSharesOut` | packages/coding-pack-runtime/src/selection.ts:313-361 | every candidate is included or excluded, once |
| `SelectionGuarantees.SelectionIsSound` | packages/coding-pack-runtime/src/selection.ts:286-391 | included and excluded paths are strictly sorted and share out the candidates, all limits hold, totals are real sums |
| `SelectionGuarantees.EveryOutcome` | packages/coding-pack-runtime/src/selection.ts:286-391 | a candidate is excluded for a reason if and only if that is its verdict, and included if and only if it has none; the limits count the included files before it in byte order |
| `ReadPlans.PlanAcceptedExactly` | packages/coding-pack-runtime/src/selection.ts:189-255 | a received plan is accepted, unaltered, if and only if planning the metadata in it makes that very plan |
| `ReadPlans.MadePlansNormalize` | packages/coding-pack-runtime/src/selection.ts:174-255 | every finalized plan passes the plan check |
| `ReadPlans.RoutesAgree` | packages/coding-pack-runtime/src/selection.ts:102-172 | selecting in one call equals planning, reading and completing, for any order of metadata and reads, down to the error |
| `PackVerification.CompletedSelection` | packages/coding-pack-runtime/src/selection.ts:115-124 | a completion accepted from a plan has a sound selection of the plan's entries |
| `PackVerification.EveryCandidateOutcome` | packages/coding-pack-runtime/src/selection.ts:115-124 | and every entry of the plan has exactly its verdict |
| `PackVerification.CheckOrder` | packages/coding-pack-runtime/src/evidence.ts:84-107 | the two neighbour loops pass if and only if the list is strictly ascending |
| `PackVerification.CheckBounds` | packages/coding-pack-runtime/src/evidence.ts:57-82 | the loop with a running total refuses exactly when a limit is exceeded |
| `PackVerification.CompletedVerifies` | packages/coding-pack-runtime/src/selection-result.ts:60-153 | every selection completed from a plan passes the selection verifier |
| `PackVerification.SelectedVerifies` | packages/coding-pack-runtime/src/selection-result.ts:60-153 | so does every selection made in one call |
| `PackVerification.ManifestOfSelection` | packages/coding-pack-runtime/src/manifest.ts:115-174 | every selection that verifies makes a manifest of exactly its evidence and identity, and that manifest verifies |
| `PackVerification.PreviewsAreIntact` | apps/desktop/src/codingPack/preview.ts:76-159 | every preview that is made passes the integrity check before confirmation |
| `PreviewConfirmation.ConfirmsExactly` | apps/desktop/src/codingPack/preview.ts:182-208 | a preview is confirmed if and only if it is intact, the project is still what it was made for, and the id and time are well formed |
| `PreviewConfirmation.ConfirmationVerifiesExactly` | apps/desktop/src/codingPack/preview.ts:182-243 | a confirmation verifies against the preview it was made for, and against any other if and only if that is intact and agrees in binding, generation, paths digest, identity and manifest digest |
| `PreviewConfirmation.ConfirmationBindsPreview` | apps/desktop/src/codingPack/preview.ts:182-243 | with digests that do not collide, a confirmation verifies against one preview only, in all its parts |
| `ExportDisk.Disk.CreateDirectory` | apps/desktop/src-tauri/src/coding_pack_export_fs.rs:478-483 | create and open a directory; a fault may leave it created |
| `ExportDisk.Disk.WriteNewFile` | apps/desktop/src-tauri/src/coding_pack_export_fs.rs:485-502 | exclusive creation, writing and syncing; a fault may leave part of the bytes |
| `ExportDisk.Disk.List` | apps/desktop/src-tauri/src/coding_pack_export_fs.rs:628-661 | a listing; a fault may cut it short without an error |
| `ExportDisk.Disk.RenameNew` | apps/desktop/src-tauri/src/coding_pack_export_fs.rs:538-564 | a rename that never replaces its target |
| `ExportDisk.RenamePlaced` | apps/desktop/src-tauri/src/coding_pack_export_fs.rs:538-564 | renaming the staging name moves the whole staged bundle and nothing else |
| `ExportCleanup.RemoveDirectoryContents` | apps/desktop/src-tauri/src/coding_pack_export_fs.rs:595-625 | the recursive removal ends, removes only what lies below, and without faults removes all of it |
| `ExportCleanup.CleanupOwnedStaging` | apps/desktop/src-tauri/src/coding_pack_export_fs.rs:567-593 | cleanup restores the tree or changes nothing outside the staging name; without faults it succeeds |
| `BundleExport.SourceDirectoryPaths` | apps/desktop/src-tauri/src/coding_pack_export_fs.rs:505-518 | the sorted set of all proper prefixes of the source paths |
| `BundleExport.ParentsFirst` | apps/desktop/src-tauri/src/coding_pack_export_fs.rs:505-518 | a directory comes after the one that holds it |
| `BundleExport.JoinedInjective` | apps/desktop/src-tauri/src/coding_pack_export_fs.rs:505-518 | paths are told apart by their text |
| `BundleExport.BundleUnique` | apps/desktop/src-tauri/src/coding_pack_export_fs.rs:159-323 | the manifest and the sources determine the tree of a bundle |
| `BundleWriter.MakeDirectories` | apps/desktop/src-tauri/src/coding_pack_export_fs.rs:222-258 | directories are created without a missing parent ever being met |
| `BundleWriter.WriteSources` | apps/desktop/src-tauri/src/coding_pack_export_fs.rs:260-298 | every source is written at its path; nothing is replaced; without faults it fails only for sources that cannot lie in one tree |
| `BundleWriter.FillStaging` | apps/desktop/src-tauri/src/coding_pack_export_fs.rs:193-310 | staging succeeds if and only if no call failed and the sources can lie in one tree, and then holds exactly the bundle |
| `BundleWriter.PromoteNoReplace` | apps/desktop/src-tauri/src/coding_pack_export_fs.rs:538-564 | promotion succeeds if and only if no call failed and the target is free |
| `BundleWriter.FinishPrePromotionFailure` | apps/desktop/src-tauri/src/coding_pack_export_fs.rs:338-350 | a failure is reported with its phase only when cleanup restored the destination |
| `BundleWriter.WriteAtomicBundle` | apps/desktop/src-tauri/src/coding_pack_export_fs.rs:159-323 | all or nothing under any pattern of faults: by the outcome, the destination is unchanged, unchanged but for the staging name, or has exactly the bundle more; and promoted and synced if and only if no call failed and names and sources fit |
| `OperationStore.CheckSequence` | packages/coding-pack-store/src/store.ts:353-371 | the loop with a set of ids checks count, ownership, numbering and distinct ids |
| `OperationRuns.GetExactly` | packages/coding-pack-store/src/store.ts:279-294 | a stored operation can be read if and only if its registered destination is the proposed one and its approval is not older than the proposal |
| `OperationRuns.NextKeepsSound` | packages/coding-pack-store/src/store.ts:162-277 | every turn of every task, reading or writing, keeps the store sound and only extends it |
| `OperationRuns.PlayIsSound` | packages/coding-pack-store/src/store.ts:76-277 | the invariant holds after every interleaving |
| `OperationRuns.StoredOperations` | packages/coding-pack-store/src/store.ts:76-277 | in every interleaving an operation has one proposal, at most one confirmation and one decision, numbered from 1, with its record in step; and is readable exactly as said above, when what is read is in time order, each step before what allows it expired |
| `OperationRuns.StoreOnlyGrows` | packages/coding-pack-store/src/in-memory-store.ts:41-89 | event lists only grow and destinations never change |
| `OperationRuns.OneConfirmation` | packages/coding-pack-store/src/in-memory-store.ts:41-89 | of racing confirmations, and of racing decisions, one is stored and stays |
| `OperationRuns.BackdatedApprovalIsStored` | packages/coding-pack-store/src/store.ts:162-208 | a prepared approval older than its proposal is stored, and the operation can then not be read |
| `OperationRuns.BackdatedApprovalExists` | packages/coding-pack-store/src/store.ts:162-208 | a run in which this happens |
| `OperationRuns.OtherFingerprintExists` | packages/coding-pack-store/src/store.ts:76-160 | a run that stores an operation whose destination has another fingerprint than the registered one; it cannot be read |
| `OperationService.InMemoryAdapter.RegisterDestinationBinding` | packages/coding-pack-store/src/in-memory-store.ts:15-24 | registering a destination: the guarded update of the maps, or the error and no change |
| `OperationService.InMemoryAdapter.Create` | packages/coding-pack-store/src/in-memory-store.ts:26-39 | creating an operation: the guarded update of the maps, or the error and no change |
| `OperationService.InMemoryAdapter.AddConfirmation` | packages/coding-pack-store/src/in-memory-store.ts:41-65 | appending a confirmation: the guarded update of the maps, or the error and no change |
| `OperationService.InMemoryAdapter.AddDecision` | packages/coding-pack-store/src/in-memory-store.ts:67-89 | appending a decision: the guarded update of the maps, or the error and no change |
| `OperationService.CodingPackStore.ConfirmExportProposal` | packages/coding-pack-store/src/store.ts:162-208 | confirming alone is the read turn followed by the write turn, and answers the operation read back |
| `OperationService.CodingPackStore.RecordExportDecision` | packages/coding-pack-store/src/store.ts:210-277 | deciding alone is the read turn followed by the write turn, and answers the operation read back |
| `PermitProtocol.NextKeepsSound` | python/kerniq_microsoft_agent_framework/backend.py:83-188 | every step, of any task, keeps the invariant of the permit protocol |
| `PermitProtocol.PlayIsSound` | python/kerniq_microsoft_agent_framework/backend.py:83-188 | the invariant holds after every schedule |
| `PermitProtocol.EnteredOnceAsAllowed` | python/kerniq_microsoft_agent_framework/backend.py:83-109 | in every schedule at most one task enters the handler, the owner, after request, allow decision, release and dispatch in this order, with the arguments decided on |
| `PermitProtocol.EntryIsByOwner` | python/kerniq_microsoft_agent_framework/backend.py:83-96 | the entering step is the owner's, in its own context, while its call is dispatched |
| `PermitProtocol.BlockedNeverEnters` | python/kerniq_microsoft_agent_framework/backend.py:156-163 | a call that was not allowed is never entered, and its record is final |
| `PermitProtocol.OverForever` | python/kerniq_microsoft_agent_framework/backend.py:129-188 | a closed record never changes and nothing enters after it |
| `PermitProtocol.ClosedIsFinished` | python/kerniq_microsoft_agent_framework/backend.py:129-188 | a closed record reads as one of five finished forms |
| `GovernedFunction.Gate.Begin` | python/kerniq_microsoft_agent_framework/backend.py:129-148 | process up to the decision: the fields after this segment are those of the protocol |
| `GovernedFunction.Gate.Decide` | python/kerniq_microsoft_agent_framework/backend.py:149-174 | process from the decision to the chain: the fields after this segment are those of the protocol |
| `GovernedFunction.Gate.EnterHandler` | python/kerniq_microsoft_agent_framework/backend.py:83-98 | the bound function up to the handler: the fields after this segment are those of the protocol |
| `GovernedFunction.Gate.LeaveHandler` | python/kerniq_microsoft_agent_framework/backend.py:97-109 | the bound function after the handler: the fields after this segment are those of the protocol |
| `GovernedFunction.Gate.Finish` | python/kerniq_microsoft_agent_framework/backend.py:172-188 | process after the chain: the fields after this segment are those of the protocol |
| `EvidenceDocument.ValidateCollection` | python/kerniq_evidence_conformance/validator.py:604-629 | a collection passes if and only if every document does and no two different ones share an identity |
| `EvidenceProjection.FinishedProjectsExactly` | python/kerniq_microsoft_agent_framework/evidence.py:8-59 | a finished record projects, and the document check accepts the result if and only if its identifiers are not blank and its decision says allow or block |
| `EvidenceProjection.ClosedProjectsExactly` | python/kerniq_microsoft_agent_framework/evidence.py:8-59 | the same for the closed record of every schedule |
| `EvidenceProjection.OtherActionDoesNotProject` | python/kerniq_microsoft_agent_framework/evidence.py:39-43 | a decision that is neither allow nor block leaves a closed record whose projection is refused |
| `EvidenceProjection.RefusedDocumentsExist` | python/kerniq_microsoft_agent_framework/backend.py:129-188 | a run with another decision and a run with a blank call id, each with a closed record whose document the check refuses |
| `EvidenceProjection.DecisionIsValid` | python/kerniq_evidence_conformance/validator.py:327-347 | the decision part is valid if and only if its texts are not blank and its action is allow or block |
| `EvidenceProjection.RequestIsValid` | python/kerniq_evidence_conformance/validator.py:304-325 | the request part is valid if and only if its identifiers are not blank |
| `ArchiveValues.ContainsOpaqueCommandMarker` | python/kerniq_external_validation/validator.py:47-68 | the stack scan ends and finds a marker exactly when the recursive definition does |
| `ArchiveValues.CheckPlainSubset` | python/kerniq_external_validation/validator.py:71-99 | the stack scan ends and accepts exactly the plain values |
| `ArchiveLifecycle.ValidateAncestry` | python/kerniq_external_validation/validator.py:262-323 | no diagnostic if and only if the archive opens with the one root and every chain belongs to it |
| `ArchiveLifecycle.MatchLifecycle` | python/kerniq_external_validation/validator.py:326-566 | no diagnostic if and only if there is one root end, one tool start and one tool end that agree, in order inside the root span; the match names their lines |
| `ArchiveLifecycle.CheckTerminal` | python/kerniq_external_validation/validator.py:458-522 | no refusal if and only if the terminal is a typed success |
| `ArchiveLifecycle.CheckKwargs` | python/kerniq_external_validation/validator.py:482-522 | the ordered checks of the keyword arguments pass if and only if they are those of a success of the named tool |
| `ArchiveLifecycle.EnforceOpaqueExclusions` | python/kerniq_external_validation/validator.py:583-611 | a refusal if and only if a required record holds a marker; the excluded lines are the other carriers |
| `ArchiveLifecycle.ValidateEvents` | python/kerniq_external_validation/validator.py:185-217 | the staged pipeline refuses nothing if and only if the archive qualifies, and its diagnostics, match and exclusions are a function of the archive |
| `ArchiveLifecycle.ResultIsGravest` | python/kerniq_external_validation/diagnostics.py:134-142 | the result is a pass if and only if nothing refuses, and otherwise the gravest one that a diagnostic leads to |
| `ArchiveValidation.ValidateEnvelopes` | python/kerniq_external_validation/validator.py:104-133 | no diagnostic if and only if every record has a valid envelope, and the diagnostics are a function of the records |
| `ArchiveValidation.Diagnose` | python/kerniq_external_validation/validator.py:185-217 | nothing is refused if and only if loading refused nothing, the envelopes are valid and the archive qualifies |
| `ArchiveValidation.EvidenceIsValidExactly` | python/kerniq_external_validation/evidence_mapping.py:64-150 | the conformance check accepts the mapped document if and only if the name of the tool and its call id are not blank |
| `ArchiveValidation.ValidateSource` | python/kerniq_external_validation/validator.py:185-255 | evidence is there, and valid, if and only if it is asked for and the source qualifies, so that a refused document never decides the result; the result is a pass if and only if the source qualifies and its bytes have not changed |
| `ArchiveValidation.RevalidationDiffersInTime` | python/kerniq_external_validation/validator.py:185-255 | two validations of one source at any two times, whatever it is refused for, are equal but for the time of the evidence: the diagnostics of every stage, the match and the exclusions are functions of the archive |
| `CanonicalValues.CanonicalTextInjective` | python/kerniq_external_validation/artifact.py:86-88 | different values have different canonical texts |
| `CanonicalValues.AcceptedExactly` | python/kerniq_external_validation/artifact.py:49-83 | bytes are accepted as a value if and only if they are its canonical text and a line end, where values hold integers within the interpreter's limit on digits and fractions as the interpreter writes them |
| `CanonicalValues.NumbersAreJson` | python/kerniq_external_validation/artifact.py:49-88 | which numbers an artifact can hold: integers within the limit on digits, and number tokens with a point or an exponent that the interpreter writes as they stand |
| `ArtifactVerifier.ArtifactVerifiesExactly` | python/kerniq_external_validation/verifier.py:86-144 | an artifact built from a source verifies against the same source, whatever the metadata of its run, if and only if the source has a digest |
| `ArchiveReplay.RevalidationVerifiesExactly` | python/kerniq_external_validation/verifier.py:86-144 | an artifact written from one validation of a source, passed or refused, verifies against another one, made at any time, if and only if the source has a digest |
| `ArtifactVerifier.UndigestedIsNeverVerified` | python/kerniq_external_validation/verifier.py:86-144 | there is an outcome without a digest; its artifact is written, and no replay of the same source accepts it |
| `ArtifactVerifier.VerifiedAgreesWithReplay` | python/kerniq_external_validation/verifier.py:86-144 | a verified artifact agrees with a fresh replay on every field but the metadata of the run, its digest, and the time in the evidence; without evidence in the replay it has none either |
| `ArtifactVerifier.SemanticOfEnvelope` | python/kerniq_external_validation/verifier.py:72-83 | what is compared holds no trace of the run |

## Left out

- SHA-256, Web Crypto, random identifiers, clocks, timestamp patterns and date parsing: parameters and integers.
- Redaction of secrets and paths in session text, and the redacted export of a session.
- Deleting sessions, after which identifiers could be used again; listing sessions; project bindings, titles, providers and payload versions.
- Sizes of evidence and of JSON values in the action runtime, and the digest check of a proposal: each is one truth value in the model.
- Handler registration: whether an action type has a handler is an input of the step that looks it up.
- Negative zero in canonical JSON, which the store's copy refuses and the runtime's copy writes as 0; the canonical form of the coding packs only refuses numbers that are not integers.
- The pattern checks of one portable path, case folding, NFC, the UTF-8 decoder of file contents, and the lists of private, vendor, generated and credential names: functions given as parameters.
- Selection rules other than the built-in ones, unknown reason or origin codes, warnings, and records with other keys: the types exclude them.
- The label and time checks of a manifest are one check, and a preview's limits on single reads are not modelled.
- PackVerification.SelectedVerifies: passing the verifier is stated one way; a selection that passes need not come from real bytes, which the verifier does not see.
- Symbolic links, renames by other processes, object identities, permissions, durability of a sync, and Windows: the export is modelled on a tree that only it changes.
- Relative source paths are lists of valid components; splitting their text at slashes, and unportable paths that validation refuses earlier, are not modelled.
- BundleWriter.WriteAtomicBundle: file systems that fold case or normalise names, on which different names can be one, are not modelled; names are equal only when their bytes are.
- The size limit of stored event payloads and the agent-fuse constants of a decision: part of one format check.
- OperationRuns.StoredOperations: the writers modelled are proposal, confirmation and decision; export events are only read, since the adapter has no writer for them.
- Errors of reading stored evidence: which of several failing checks is reported depends on timing in the code; the model has one error for them.
- The AgentFuse guard, the tool identity checks in detail, the digest of arguments, and the framework: what they answer is an input of each step.
- PermitProtocol.EntryIsByOwner: the chain below a dispatched call runs in the owner's task, so that it cannot end while the handler it entered runs; a chain that abandons its coroutine is outside the model.
- Loading a source and reading it again: what loading refused, and whether the bytes are still the same, are inputs of the validation. The pattern of a time, and the text of the clock, are parameters.
- JSON text of other writers: white space is refused when parsing, where the code refuses it when it compares bytes. How the interpreter writes a float, and its limit on the digits of integers, are parameters. Nesting too deep for the interpreter is not modelled.
- Writing the artifact file, and the parts of an outcome that verification only compares as a whole: they are one map.
- The Windows code, the desktop shell, SQLite stores, the LangChain and DSH projectors, the runtime seal, and adapters of other providers.
