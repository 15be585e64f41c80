/** Governance evidence documents: their observations, and the fail-closed check of one. */
module EvidenceDocument {
  import opened Wrappers
  import opened PythonTexts

  const SCHEMA_VERSION := "kerniq.governance-evidence.v0.2"

  datatype ObservationStatus = Known | UnknownStatus | NotApplicable

  /** A fact, the lack of one, or the evidenced inapplicability of one. */
  datatype Observation<T> = Observation(status: ObservationStatus, value: Option<T>, sourceRef: Option<string>,
                                        reason: Option<string>)

  datatype Identity = Identity(trusted: bool, subjectRef: Option<string>, provenanceRef: Option<string>,
                               reason: Option<string>)

  datatype RequestRecord = RequestRecord(requestId: Option<string>, toolCallId: Option<string>,
                                         attemptRef: Option<string>, runtimeRef: Option<string>,
                                         actionName: Option<string>, actionRef: Option<string>, identity: Identity)

  datatype Evaluation = DecidedEvaluation | ErrorEvaluation | UnknownEvaluation

  datatype DecidedRecord = DecidedRecord(decisionId: Option<string>, evaluation: Evaluation, action: Option<string>,
                                         policyRef: Option<string>, targetRef: Option<string>,
                                         decidedAt: Option<string>)

  datatype Disposition = Granted | RefusedDisposition | UnknownDisposition

  datatype AuthorizationRecord = AuthorizationRecord(authorizationRef: Option<string>, disposition: Disposition,
                                                     targetRef: Option<string>, approvedAt: Option<string>,
                                                     expiresAt: Option<string>, generation: Option<string>,
                                                     validityRef: Option<string>, identity: Identity)

  datatype ArgumentsDigest = ArgumentsDigest(algorithm: string, representation: string, value: string)

  datatype ArgumentsRecord = ArgumentsRecord(snapshotRef: Option<string>, toolRef: Option<string>,
                                             scopeRef: Option<string>, digest: Option<ArgumentsDigest>)

  datatype ScopeRecord = ScopeRecord(scopeRef: Option<string>, runtimeRef: Option<string>, contextRef: Option<string>,
                                     resourceRefs: Option<seq<string>>, operation: Option<string>)

  datatype MatchRecord = MatchRecord(matched: bool, authorizationTargetRef: Option<string>,
                                     effectiveTargetRef: Option<string>)

  datatype StageRecord = StageRecord(occurred: bool, at: Option<string>)

  datatype OutcomeRecord = OutcomeRecord(status: string, reason: Option<string>, resultRef: Option<string>)

  datatype Document = Document(
    schemaVersion: string, evidenceId: Option<string>, producerRef: Option<string>, profileRef: Option<string>,
    recordedAt: Option<string>, previousEvidenceRef: Option<string>,
    request: Observation<RequestRecord>, decision: Observation<DecidedRecord>,
    authorization: Observation<AuthorizationRecord>, requested: Observation<ArgumentsRecord>,
    effective: Observation<ArgumentsRecord>, executed: Observation<ArgumentsRecord>,
    scope: Observation<ScopeRecord>, authorizationMatch: Observation<MatchRecord>,
    release: Observation<StageRecord>, dispatch: Observation<StageRecord>, start: Observation<StageRecord>,
    completion: Observation<StageRecord>, outcome: Observation<OutcomeRecord>)

  /** A string that may be absent, but not blank. */
  predicate TextOk(text: Option<string>, required: bool) { if text.None? then !required else !Blank(text.value) }

  /** A time that may be absent, but not malformed. */
  predicate TimeOk(wellFormed: string -> bool, time: Option<string>, required: bool) {
    if time.None? then !required else wellFormed(time.value)
  }

  predicate IdentityOk(i: Identity) {
    && TextOk(i.subjectRef, false) && TextOk(i.provenanceRef, false) && TextOk(i.reason, false)
    && if i.trusted then i.subjectRef.Some? && i.provenanceRef.Some? && i.reason.None?
       else i.subjectRef.None? && i.provenanceRef.None? && i.reason.Some?
  }

  predicate RequestOk(r: RequestRecord) {
    && TextOk(r.requestId, false) && TextOk(r.toolCallId, false) && TextOk(r.attemptRef, false)
    && TextOk(r.runtimeRef, false) && TextOk(r.actionName, false) && TextOk(r.actionRef, false)
    && IdentityOk(r.identity)
    && (r.requestId.Some? || r.toolCallId.Some? || r.attemptRef.Some?)
  }

  predicate DecisionOk(wellFormed: string -> bool, d: DecidedRecord) {
    && TextOk(d.decisionId, false)
    && (if d.evaluation.DecidedEvaluation?
        then d.action.Some? && d.action.value in {"allow", "block"} else d.action.None?)
    && TextOk(d.policyRef, false) && TextOk(d.targetRef, false) && TimeOk(wellFormed, d.decidedAt, false)
  }

  predicate AuthorizationOk(wellFormed: string -> bool, a: AuthorizationRecord) {
    && TextOk(a.authorizationRef, true) && TextOk(a.targetRef, false)
    && TimeOk(wellFormed, a.approvedAt, false) && TimeOk(wellFormed, a.expiresAt, false)
    && TextOk(a.generation, false) && TextOk(a.validityRef, false)
    && (a.disposition.Granted? || a.approvedAt.None?)
    && IdentityOk(a.identity)
  }

  predicate IsLowerHex(c: char) { '0' <= c <= '9' || 'a' <= c <= 'f' }

  /** 64 hexadecimal digits; the pattern also lets one line end follow them. */
  predicate IsHex64(s: string) {
    && (|s| == 64 || (|s| == 65 && s[64] == '\n'))
    && forall i :: 0 <= i < 64 ==> IsLowerHex(s[i])
  }

  predicate DigestOk(d: ArgumentsDigest) { d.algorithm == "sha256" && !Blank(d.representation) && IsHex64(d.value) }

  predicate ArgumentsOk(a: ArgumentsRecord) {
    && TextOk(a.snapshotRef, false) && TextOk(a.toolRef, false) && TextOk(a.scopeRef, false)
    && (a.digest.Some? ==> DigestOk(a.digest.value))
    && (a.snapshotRef.Some? || a.digest.Some?)
  }

  predicate ScopeOk(s: ScopeRecord) {
    && TextOk(s.scopeRef, true) && TextOk(s.runtimeRef, false) && TextOk(s.contextRef, false)
    && TextOk(s.operation, false)
    && (s.resourceRefs.Some? ==> forall i :: 0 <= i < |s.resourceRefs.value| ==> !Blank(s.resourceRefs.value[i]))
  }

  predicate MatchOk(m: MatchRecord) { TextOk(m.authorizationTargetRef, true) && TextOk(m.effectiveTargetRef, true) }

  predicate StageOk(wellFormed: string -> bool, s: StageRecord) {
    TimeOk(wellFormed, s.at, false) && (s.occurred || s.at.None?)
  }

  predicate OutcomeOk(o: OutcomeRecord) {
    && o.status in {"success", "failure", "not_executed", "cancelled", "unknown"}
    && TextOk(o.reason, false) && TextOk(o.resultRef, false)
    && (o.status == "success" || o.reason.Some?)
  }

  /** The discipline of an observation: a known one has a value and a source and no
      reason; an unknown one a reason and no value; an inapplicable one a source and a
      reason and no value, and is allowed on some fields only. */
  predicate Observed<T>(o: Observation<T>, mayBeInapplicable: bool, valueOk: T -> bool) {
    && TextOk(o.sourceRef, false) && TextOk(o.reason, false)
    && match o.status
       case Known => o.value.Some? && o.reason.None? && o.sourceRef.Some? && valueOk(o.value.value)
       case UnknownStatus => o.value.None? && o.reason.Some?
       case NotApplicable => mayBeInapplicable && o.value.None? && o.sourceRef.Some? && o.reason.Some?
  }

  /** The check of one evidence document. */
  predicate ValidDocument(wellFormed: string -> bool, d: Document) {
    && d.schemaVersion == SCHEMA_VERSION
    && TextOk(d.evidenceId, true) && TextOk(d.producerRef, true) && TextOk(d.profileRef, true)
    && TimeOk(wellFormed, d.recordedAt, true) && TextOk(d.previousEvidenceRef, false)
    && Observed(d.request, false, RequestOk)
    && Observed(d.decision, false, x => DecisionOk(wellFormed, x))
    && Observed(d.authorization, true, x => AuthorizationOk(wellFormed, x))
    && Observed(d.requested, false, ArgumentsOk)
    && Observed(d.effective, false, ArgumentsOk)
    && Observed(d.executed, true, ArgumentsOk)
    && Observed(d.scope, false, ScopeOk)
    && Observed(d.authorizationMatch, true, MatchOk)
    && Observed(d.release, false, x => StageOk(wellFormed, x))
    && Observed(d.dispatch, false, x => StageOk(wellFormed, x))
    && Observed(d.start, false, x => StageOk(wellFormed, x))
    && Observed(d.completion, false, x => StageOk(wellFormed, x))
    && Observed(d.outcome, false, OutcomeOk)
  }

  /** Nothing was observed, for a reason. */
  function Unobserved<T>(reason: string): Observation<T> { Observation(UnknownStatus, None, None, Some(reason)) }

  lemma NotBlank(text: string, i: nat)
    requires i < |text| && !IsSpace(text[i])
    ensures !Blank(text)
  {}

  lemma LetterNotBlank(text: string)
    requires text != [] && 'a' <= text[0] <= 'z'
    ensures !Blank(text)
  {
    NotBlank(text, 0);
  }

  /** An observation of nothing, for a reason in words, is valid. */
  lemma UnobservedIsValid<T>(reason: string, mayBeInapplicable: bool, valueOk: T -> bool)
    requires reason != [] && 'a' <= reason[|reason| - 1] <= 'z'
    ensures Observed(Unobserved(reason), mayBeInapplicable, valueOk)
  {
    NotBlank(reason, |reason| - 1);
  }

  /** The identity of a document within its producer's collection. */
  function Key(d: Document): (Option<string>, Option<string>) { (d.producerRef, d.evidenceId) }

  /** The check of a collection: it passes exactly when every document does and no two
      different documents share an identity. */
  method ValidateCollection(wellFormed: string -> bool, documents: seq<Document>) returns (ok: bool)
    ensures ok <==> && (forall d <- documents :: ValidDocument(wellFormed, d))
                    && (forall d <- documents, e <- documents :: Key(d) == Key(e) ==> d == e)
  {
    hide ValidDocument;
    var byId: map<(Option<string>, Option<string>), Document> := map[];
    for i := 0 to |documents|
      invariant forall d <- documents[..i] :: ValidDocument(wellFormed, d) && Key(d) in byId && byId[Key(d)] == d
      invariant forall key <- byId :: byId[key] in documents[..i] && Key(byId[key]) == key
    {
      var document := documents[i];
      assert document in documents && forall d <- documents[..i] :: d in documents;
      assert documents[..i + 1] == documents[..i] + [document];
      if !ValidDocument(wellFormed, document) {
        return false;
      }
      var key := Key(document);
      if key in byId && byId[key] != document {
        return false;
      }
      byId := byId[key := document];
    }
    assert documents[..|documents|] == documents;
    return true;
  }
}
