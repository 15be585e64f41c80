/** Projecting a closed invocation into an evidence document, and which projections the
    document check accepts. */
module EvidenceProjection {
  import opened Wrappers
  import opened PythonTexts
  import opened PermitProtocol
  import opened EvidenceDocument

  const TOOL_NAME := "kerniq_record_marker"
  const PROFILE := "maf-python-local-function-governed-v0.8"
  const REQUESTED_NOTE := "context_is_validated_effective_args_not_exact_model_request"
  const TOOL_REF := PROFILE + ":" + TOOL_NAME

  /** The time of the last event of a phase. */
  function PhaseTime(events: seq<Event>, phase: Phase): Option<string> {
    if events == [] then None
    else if events[|events| - 1].phase == phase then Some(events[|events| - 1].at)
    else PhaseTime(events[..|events| - 1], phase)
  }

  function SourceRef(r: Invocation): string { "maf-local-observation:" + r.requestId }

  function KnownValue<T>(r: Invocation, value: T, phase: string): Observation<T> {
    Observation(Known, Some(value), Some(SourceRef(r) + "#" + phase), None)
  }

  function Arguments(r: Invocation, digest: Digest, phase: string): Observation<ArgumentsRecord> {
    KnownValue(r, ArgumentsRecord(None, Some(TOOL_REF), Some(r.runId),
                                  Some(ArgumentsDigest("sha256", "utf8-json-exact-v1", digest))), phase)
  }

  function PhaseName(phase: Phase): string {
    match phase
    case Release => "release"
    case Dispatch => "dispatch"
    case Start => "start"
    case _ => "completion"
  }

  function Stage(r: Invocation, phase: Phase): Observation<StageRecord> {
    var at := PhaseTime(r.events, phase);
    KnownValue(r, StageRecord(at.Some?, at), if at.Some? then PhaseName(phase) else "closed")
  }

  function ActionName(action: Action): string {
    match action case Allow => "allow" case Block => "block" case OtherAction => "other"
  }

  function StatusName(status: Status): string {
    match status
    case Unknown => "unknown"
    case Success => "success"
    case Failure => "failure"
    case Cancelled => "cancelled"
    case NotExecuted => "not_executed"
  }

  function RequestOf(r: Invocation): Observation<RequestRecord> {
    KnownValue(r, RequestRecord(Some(r.requestId), Some(r.callId), r.occurrenceId, Some(r.runId), Some(TOOL_NAME),
                                Some(TOOL_REF),
                                Identity(false, None, None, Some("no_authenticated_requester"))), "request")
  }

  function DecisionOf(r: Invocation): Observation<DecidedRecord> {
    match r.decision
    case Some(d) => KnownValue(r, DecidedRecord(d.recordId, DecidedEvaluation, Some(ActionName(d.action)),
                                                d.policyId, Some("sha256:" + r.effective),
                                                PhaseTime(r.events, Decision)), "decision")
    case None => Unobserved("no_valid_bound_decision")
  }

  function ExecutedOf(r: Invocation): Observation<ArgumentsRecord> {
    match r.executed
    case Some(digest) => Arguments(r, digest, "start")
    case None => Observation(NotApplicable, None, Some(SourceRef(r)), Some(r.reason))
  }

  function ScopeOf(r: Invocation): Observation<ScopeRecord> {
    KnownValue(r, ScopeRecord(Some(r.runId), Some(r.runId), Some(r.runId), None,
                              Some("local_custom_function")), "request")
  }

  function OutcomeOf(r: Invocation): Observation<OutcomeRecord> {
    KnownValue(r, OutcomeRecord(StatusName(r.outcome), if r.reason == "" then None else Some(r.reason),
                                if r.outcome.Success? then Some(SourceRef(r) + "#" + "completion") else None), "closed")
  }

  /** The document of an invocation; none while it is open. */
  function Project(r: Invocation, recordedAt: string): Option<Document> {
    if r.events == [] || r.events[|r.events| - 1].phase != Closed then None
    else Some(Document(
      SCHEMA_VERSION, Some(r.requestId), Some("kerniq:maf-local-function-adapter-v0.8"), Some(PROFILE),
      Some(recordedAt), None,
      RequestOf(r), DecisionOf(r), Unobserved("policy_decision_is_not_human_authorization"),
      Unobserved(REQUESTED_NOTE), Arguments(r, r.effective, "request"), ExecutedOf(r),
      ScopeOf(r), Unobserved("no_authorization_to_attribute"),
      Stage(r, Release), Stage(r, Dispatch), Stage(r, Start), Stage(r, Completion),
      OutcomeOf(r)))
  }

  /** What a record takes from outside is presentable: no identifier is blank, and a
      decision that was recorded says allow or block. */
  predicate Presentable(r: Invocation) {
    && !Blank(r.requestId) && !Blank(r.callId) && !Blank(r.runId)
    && TextOk(r.occurrenceId, false)
    && (r.decision.Some? ==>
          && TextOk(r.decision.value.recordId, false) && TextOk(r.decision.value.policyId, false)
          && !r.decision.value.action.OtherAction?)
  }

  lemma ReasonNotBlank(reason: string)
    requires Stated(reason)
    ensures !Blank(reason) && reason != ""
  {
    NotBlank(reason, 0);
  }

  lemma {:induction false} PhaseTimeIsClock(wellFormed: string -> bool, events: seq<Event>, phase: Phase)
    requires forall i :: 0 <= i < |events| ==> wellFormed(events[i].at)
    ensures TimeOk(wellFormed, PhaseTime(events, phase), false)
  {
    if events != [] { PhaseTimeIsClock(wellFormed, events[..|events| - 1], phase); }
  }

  lemma SourceNotBlank(r: Invocation, phase: string)
    ensures !Blank(SourceRef(r)) && !Blank(SourceRef(r) + "#" + phase)
  {
    NotBlank(SourceRef(r), 0);
    NotBlank(SourceRef(r) + "#" + phase, 0);
  }

  lemma StageIsValid(wellFormed: string -> bool, r: Invocation, phase: Phase)
    requires forall i :: 0 <= i < |r.events| ==> wellFormed(r.events[i].at)
    ensures Observed(Stage(r, phase), false, x => StageOk(wellFormed, x))
  {
    PhaseTimeIsClock(wellFormed, r.events, phase);
    SourceNotBlank(r, PhaseName(phase));
    SourceNotBlank(r, "closed");
  }

  lemma ToolNotBlank()
    ensures !Blank(TOOL_NAME) && !Blank(TOOL_REF) && !Blank(PROFILE)
  {
    hide Blank;
    LetterNotBlank(TOOL_NAME);
    LetterNotBlank(TOOL_REF);
    LetterNotBlank(PROFILE);
  }

  lemma ArgumentsAreValid(r: Invocation, digest: Digest, phase: string, mayBeInapplicable: bool)
    requires IsHex64(digest)
    ensures Observed(Arguments(r, digest, phase), mayBeInapplicable, ArgumentsOk) <==> !Blank(r.runId)
  {
    hide Blank, IsHex64, SourceRef;
    ToolNotBlank();
    LetterNotBlank("utf8-json-exact-v1");
    SourceNotBlank(r, phase);
  }

  lemma RequestIsValid(r: Invocation)
    ensures Observed(RequestOf(r), false, RequestOk)
       <==> !Blank(r.requestId) && !Blank(r.callId) && !Blank(r.runId) && TextOk(r.occurrenceId, false)
  {
    hide Blank, SourceRef;
    ToolNotBlank();
    LetterNotBlank("no_authenticated_requester");
    SourceNotBlank(r, "request");
  }

  lemma DecisionIsValid(wellFormed: string -> bool, r: Invocation)
    requires forall i :: 0 <= i < |r.events| ==> wellFormed(r.events[i].at)
    ensures Observed(DecisionOf(r), false, x => DecisionOk(wellFormed, x))
       <==> (r.decision.Some? ==>
               && TextOk(r.decision.value.recordId, false) && TextOk(r.decision.value.policyId, false)
               && !r.decision.value.action.OtherAction?)
  {
    hide Blank, SourceRef;
    if r.decision.Some? {
      SourceNotBlank(r, "decision");
      LetterNotBlank("sha256:" + r.effective);
      PhaseTimeIsClock(wellFormed, r.events, Decision);
      OnlyTwoActions(r.decision.value.action);
    } else {
      LetterNotBlank("no_valid_bound_decision");
    }
  }

  lemma OnlyTwoActions(action: Action)
    ensures ActionName(action) in {"allow", "block"} <==> !action.OtherAction?
  {
    assert |"other"| == 5 && "other"[0] == 'o' && "allow"[0] == 'a' && "block"[0] == 'b';
  }

  lemma ScopeIsValid(r: Invocation)
    ensures Observed(ScopeOf(r), false, ScopeOk) <==> !Blank(r.runId)
  {
    hide Blank, SourceRef;
    LetterNotBlank("local_custom_function");
    SourceNotBlank(r, "request");
  }

  lemma OutcomeIsValid(r: Invocation)
    requires Finished(r)
    ensures Observed(OutcomeOf(r), false, OutcomeOk)
  {
    hide Blank, SourceRef, Stated, Phases;
    SourceNotBlank(r, "closed");
    SourceNotBlank(r, "completion");
    if !r.outcome.Success? { ReasonNotBlank(r.reason); }
  }

  lemma ExecutedIsValid(r: Invocation)
    requires Finished(r) && IsHex64(r.effective) && !Blank(r.runId)
    ensures Observed(ExecutedOf(r), true, ArgumentsOk)
  {
    hide Blank, SourceRef, Stated, Phases, IsHex64;
    if r.executed.Some? {
      ArgumentsAreValid(r, r.effective, "start", true);
    } else {
      SourceNotBlank(r, "start");
      ReasonNotBlank(r.reason);
    }
  }

  lemma UnobservedFieldsAreValid(wellFormed: string -> bool)
    ensures Observed(Unobserved("policy_decision_is_not_human_authorization"), true,
                     x => AuthorizationOk(wellFormed, x))
    ensures Observed(Unobserved(REQUESTED_NOTE), false, ArgumentsOk)
    ensures Observed(Unobserved("no_authorization_to_attribute"), true, MatchOk)
  {
    hide Observed, Unobserved, Blank, AuthorizationOk, ArgumentsOk, MatchOk;
    assert REQUESTED_NOTE[|REQUESTED_NOTE| - 1] == 't';
    UnobservedIsValid("policy_decision_is_not_human_authorization", true, x => AuthorizationOk(wellFormed, x));
    UnobservedIsValid(REQUESTED_NOTE, false, ArgumentsOk);
    UnobservedIsValid("no_authorization_to_attribute", true, MatchOk);
  }

  /** A finished record projects to a document that the check accepts exactly when what it
      took from outside is presentable. */
  lemma FinishedProjectsExactly(wellFormed: string -> bool, r: Invocation, recordedAt: string)
    requires Finished(r) && (forall i :: 0 <= i < |r.events| ==> wellFormed(r.events[i].at))
    requires wellFormed(recordedAt) && IsHex64(r.effective)
    ensures Project(r, recordedAt).Some?
    ensures ValidDocument(wellFormed, Project(r, recordedAt).value) <==> Presentable(r)
  {
    hide Blank, SourceRef, Finished, Observed, RequestOf, DecisionOf, ExecutedOf, ScopeOf, OutcomeOf, Stage, Arguments,
         Unobserved;
    FinishedIsClosed(r);
    ToolNotBlank();
    LetterNotBlank("kerniq:maf-local-function-adapter-v0.8");
    RequestIsValid(r);
    DecisionIsValid(wellFormed, r);
    UnobservedFieldsAreValid(wellFormed);
    ArgumentsAreValid(r, r.effective, "request", false);
    if !Blank(r.runId) { ExecutedIsValid(r); }
    ScopeIsValid(r);
    StageIsValid(wellFormed, r, Release);
    StageIsValid(wellFormed, r, Dispatch);
    StageIsValid(wellFormed, r, Start);
    StageIsValid(wellFormed, r, Completion);
    OutcomeIsValid(r);
  }

  lemma FinishedIsClosed(r: Invocation)
    requires Finished(r)
    ensures r.events != [] && r.events[|r.events| - 1].phase == Closed
  {
    assert Phases(r.events)[|r.events| - 1] == Closed;
  }

  /** Every closed record of every schedule projects; the check accepts the document
      exactly when the record is presentable. */
  lemma ClosedProjectsExactly(host: Host, steps: seq<Step>, wellFormed: string -> bool, recordedAt: string)
    requires (forall n :: wellFormed(host.clock(n))) && wellFormed(recordedAt)
    requires var s := Play(host, steps);
      s.records != [] && Closed in Phases(s.records[0].events) && IsHex64(s.records[0].effective)
    ensures var r := Play(host, steps).records[0];
            Project(r, recordedAt).Some?
            && (ValidDocument(wellFormed, Project(r, recordedAt).value) <==> Presentable(r))
  {
    hide Finished, ValidDocument, Project, Presentable, IsHex64;
    ClosedIsFinished(host, steps);
    FinishedProjectsExactly(wellFormed, Play(host, steps).records[0], recordedAt);
  }

  /** A decision that is neither allow nor block leaves a closed record whose projection
      the check refuses. */
  lemma OtherActionDoesNotProject(wellFormed: string -> bool, r: Invocation, recordedAt: string)
    requires Finished(r) && (forall i :: 0 <= i < |r.events| ==> wellFormed(r.events[i].at))
    requires wellFormed(recordedAt) && IsHex64(r.effective)
    requires r.decision.Some? && r.decision.value.action.OtherAction?
    ensures Project(r, recordedAt).Some? && !ValidDocument(wellFormed, Project(r, recordedAt).value)
  {
    FinishedProjectsExactly(wellFormed, r, recordedAt);
  }

  // ---------- runs whose documents are refused ----------

  lemma PlaySnoc(host: Host, steps: seq<Step>, step: Step)
    ensures Play(host, steps + [step]) == Next(host, Play(host, steps), step)
  {
    assert (steps + [step])[..|steps|] == steps;
  }

  /** A call that begins and is answered at once, with the tool and its arguments unchanged. */
  function Asked(callId: string, digest: Digest): View { View(0, true, callId, None, Some(digest)) }

  function Answered(callId: string, digest: Digest, action: Action): seq<Step> {
    [] + [Process(0, Asked(callId, digest), "r")] + [Decided(Replied(true, DecisionRecord(action, None, None)),
                                                             Asked(callId, digest))]
  }

  /** Blocked, or decided in another way, the call is over at once; its record is closed. */
  lemma AnsweredCloses(host: Host, callId: string, digest: Digest, action: Action)
    requires callId != "" && !action.Allow?
    ensures Records(host, Answered(callId, digest, action), action, callId)
    ensures var r := Play(host, Answered(callId, digest, action)).records[0];
      Closed in Phases(r.events) && r.effective == digest
  {
    hide Phases, Play;
    var begin: Step := Process(0, Asked(callId, digest), "r");
    assert Play(host, []) == INITIAL by { NothingPlayed(host); }
    PlaySnoc(host, [], begin);
    PlaySnoc(host, [] + [begin], Decided(Replied(true, DecisionRecord(action, None, None)), Asked(callId, digest)));
    var r := Play(host, Answered(callId, digest, action)).records[0];
    assert r.events[|r.events| - 1].phase == Closed;
    assert Phases(r.events)[|r.events| - 1] == Closed;
  }

  lemma NothingPlayed(host: Host)
    ensures Play(host, []) == INITIAL
  {}

  lemma SomeDigest() returns (digest: Digest)
    ensures IsHex64(digest)
  {
    digest := seq(64, _ => 'a');
  }

  /** The run's record is closed, its digest is one, and the check refuses its document. */
  ghost predicate ClosedAndRefused(host: Host, steps: seq<Step>, wellFormed: string -> bool, recordedAt: string) {
    && Play(host, steps).records != []
    && var r := Play(host, steps).records[0];
    && Closed in Phases(r.events) && IsHex64(r.effective)
    && Project(r, recordedAt).Some? && !ValidDocument(wellFormed, Project(r, recordedAt).value)
  }

  /** The first record of a run, with this decision and this call id. */
  ghost predicate Records(host: Host, steps: seq<Step>, action: Action, callId: string) {
    && Play(host, steps).records != []
    && var r := Play(host, steps).records[0];
    && r.decision.Some? && r.decision.value.action == action && r.callId == callId
  }

  /** Both refusals occur: a run whose decision is neither allow nor block, and a run with a
      blank call id, leave closed records whose documents the check refuses. */
  lemma RefusedDocumentsExist(host: Host, wellFormed: string -> bool, recordedAt: string)
    returns (other: seq<Step>, blank: seq<Step>)
    requires (forall n :: wellFormed(host.clock(n))) && wellFormed(recordedAt)
    ensures ClosedAndRefused(host, other, wellFormed, recordedAt) && Records(host, other, OtherAction, "c")
    ensures ClosedAndRefused(host, blank, wellFormed, recordedAt) && Records(host, blank, Block, " ")
  {
    hide Play, Phases, IsHex64, Project, ValidDocument;
    var digest := SomeDigest();
    other, blank := Answered("c", digest, OtherAction), Answered(" ", digest, Block);
    AnsweredCloses(host, "c", digest, OtherAction);
    AnsweredCloses(host, " ", digest, Block);
    ClosedProjectsExactly(host, other, wellFormed, recordedAt);
    ClosedProjectsExactly(host, blank, wellFormed, recordedAt);
  }
}
