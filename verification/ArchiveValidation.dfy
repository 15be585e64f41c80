/** Validating a loaded archive from its records to its result: envelopes, qualification,
    the mapping into an evidence document, and the second look at the source. */
module ArchiveValidation {
  import opened Wrappers
  import opened PythonTexts
  import opened ArchiveValues
  import opened ArchiveLifecycle
  import E = EvidenceDocument

  /** A line of the archive: a JSON object. */
  type Record = seq<Field>

  /** What loading yields: the records, the digest and the number of the bytes, and what was
      refused. */
  datatype Loaded = Loaded(records: seq<Record>, digest: string, length: nat, diagnostics: seq<Diagnostic>)

  /** How values are written, how a run id is shortened, which texts are times, and the time
      of the validation. */
  datatype Host = Host(dumps: Value -> string, salt: string -> string, wellFormed: string -> bool, now: string)

  // ---------- envelopes ----------

  const ENVELOPE_FIELDS := ["event", "name", "run_id", "parent_ids", "data"]

  predicate IsName(v: Option<Value>) { v.Some? && v.value.Text? && !Blank(v.value.text) }

  predicate AreNames(v: Option<Value>) {
    v.Some? && v.value.List? && forall i :: 0 <= i < |v.value.items| ==> IsName(Some(v.value.items[i]))
  }

  predicate EnvelopeOk(record: Record) {
    && Get(record, "event").Some? && Get(record, "event").value.Text?
    && IsName(Get(record, "name")) && IsName(Get(record, "run_id")) && AreNames(Get(record, "parent_ids"))
    && IsObject(Get(record, "data"))
  }

  predicate Enveloped(records: seq<Record>) { forall i :: 0 <= i < |records| ==> EnvelopeOk(records[i]) }

  /** The diagnostics of the fields that are missing among the first of an envelope. */
  function MissingFields(record: Record, n: nat, line: int): seq<Diagnostic>
    requires n <= |ENVELOPE_FIELDS|
  {
    if n == 0 then []
    else
      MissingFields(record, n - 1, line)
      + if Get(record, ENVELOPE_FIELDS[n - 1]).None? then [Diagnostic(InvalidSource, RequiredFields, line)] else []
  }

  /** One diagnostic, unless a check passed. */
  function Unless(ok: bool, rule: Rule, line: int): seq<Diagnostic> {
    if ok then [] else [Diagnostic(InvalidSource, rule, line)]
  }

  /** What the envelope of one record is refused for. */
  function EnvelopeReport(record: Record, line: int): seq<Diagnostic> {
    var event := Get(record, "event");
    MissingFields(record, |ENVELOPE_FIELDS|, line)
    + Unless(event.Some? && event.value.Text?, EventString, line)
    + Unless(IsName(Get(record, "name")), NameNonempty, line)
    + Unless(IsName(Get(record, "run_id")), RunIdNonempty, line)
    + Unless(AreNames(Get(record, "parent_ids")), ParentIdsStrings, line)
    + Unless(IsObject(Get(record, "data")), DataObject, line)
  }

  lemma {:induction false} MissingExactly(record: Record, n: nat, line: int)
    requires n <= |ENVELOPE_FIELDS|
    ensures AllRefuse(MissingFields(record, n, line))
    ensures MissingFields(record, n, line) == [] <==> forall j :: 0 <= j < n ==> Get(record, ENVELOPE_FIELDS[j]).Some?
  {
    hide Get;
    if n > 0 { MissingExactly(record, n - 1, line); }
  }

  /** Every report of an envelope refuses, and there is none exactly when it is valid. */
  lemma EnvelopeExactly(record: Record, line: int)
    ensures AllRefuse(EnvelopeReport(record, line))
    ensures EnvelopeReport(record, line) == [] <==> EnvelopeOk(record)
  {
    hide Get, Blank, MissingFields;
    MissingExactly(record, |ENVELOPE_FIELDS|, line);
    assert EnvelopeOk(record) ==> MissingFields(record, |ENVELOPE_FIELDS|, line) == [];
  }

  function EnvelopeReports(records: seq<Record>): seq<Diagnostic> {
    if records == [] then []
    else
      var n := |records| - 1;
      EnvelopeReports(records[..n]) + EnvelopeReport(records[n], n + 1)
  }

  /** The diagnostics of one record. */
  method CheckEnvelope(record: Record, line: int) returns (diagnostics: seq<Diagnostic>)
    ensures AllRefuse(diagnostics) && (diagnostics == [] <==> EnvelopeOk(record))
    ensures diagnostics == EnvelopeReport(record, line)
  {
    hide Get, AreNames, IsName, EnvelopeOk, AllRefuse, Unless;
    diagnostics := [];
    for k := 0 to |ENVELOPE_FIELDS|
      invariant diagnostics == MissingFields(record, k, line)
    {
      if Get(record, ENVELOPE_FIELDS[k]).None? {
        diagnostics := diagnostics + [Diagnostic(InvalidSource, RequiredFields, line)];
      }
    }
    var event := Get(record, "event");
    diagnostics := diagnostics + Unless(event.Some? && event.value.Text?, EventString, line);
    diagnostics := diagnostics + Unless(IsName(Get(record, "name")), NameNonempty, line);
    diagnostics := diagnostics + Unless(IsName(Get(record, "run_id")), RunIdNonempty, line);
    diagnostics := diagnostics + Unless(AreNames(Get(record, "parent_ids")), ParentIdsStrings, line);
    diagnostics := diagnostics + Unless(IsObject(Get(record, "data")), DataObject, line);
    EnvelopeExactly(record, line);
  }

  method ValidateEnvelopes(records: seq<Record>) returns (diagnostics: seq<Diagnostic>)
    ensures AllRefuse(diagnostics) && (diagnostics == [] <==> Enveloped(records))
    ensures diagnostics == EnvelopeReports(records)
  {
    hide EnvelopeOk, EnvelopeReport;
    diagnostics := [];
    for i := 0 to |records|
      invariant AllRefuse(diagnostics) && diagnostics == EnvelopeReports(records[..i])
      invariant diagnostics == [] <==> forall j :: 0 <= j < i ==> EnvelopeOk(records[j])
    {
      assert records[..i + 1][..i] == records[..i];
      var found := CheckEnvelope(records[i], i + 1);
      diagnostics := diagnostics + found;
    }
    assert records[..|records|] == records;
  }

  function TextOr(v: Option<Value>, other: string): string { if v.Some? && v.value.Text? then v.value.text else other }

  /** The parents of an event; a value that is not a list stands for one unnamed parent. */
  function ParentsOf(v: Option<Value>): seq<string> {
    if v.Some? && v.value.List?
    then seq(|v.value.items|, i requires 0 <= i < |v.value.items| => TextOr(Some(v.value.items[i]), ""))
    else [""]
  }

  /** A record as an event. Of a record without a valid envelope only its kind, whether it
      has parents, and its value matter. */
  function EventOf(record: Record): Event {
    var data := Get(record, "data");
    Event(TextOr(Get(record, "event"), ""), TextOr(Get(record, "name"), ""), TextOr(Get(record, "run_id"), ""),
          ParentsOf(Get(record, "parent_ids")), if IsObject(data) then data.value.fields else [], Object(record))
  }

  function EventsOf(records: seq<Record>): (events: seq<Event>)
    ensures |events| == |records| && forall i :: 0 <= i < |events| ==> events[i] == EventOf(records[i])
  {
    seq(|records|, i requires 0 <= i < |records| => EventOf(records[i]))
  }

  // ---------- the mapping into evidence ----------

  /** The facts of a match that the evidence tells. */
  datatype MatchedIdentity = MatchedIdentity(rootRunId: string, toolRunId: string, toolName: string, startLine: nat,
                                             endLine: nat, toolCallId: string)

  function ToolCallId(end: Event): string {
    var output := Get(end.data, "output");
    if !IsObject(output) then ""
    else
      var kwargs := Get(output.value.fields, "kwargs");
      if !IsObject(kwargs) then "" else TextOr(Get(kwargs.value.fields, "tool_call_id"), "")
  }

  function IdentityOf(events: seq<Event>, m: Matched): MatchedIdentity
    requires events != [] && 1 <= m.start <= |events| && 1 <= m.end <= |events|
  {
    MatchedIdentity(events[0].runId, events[m.start - 1].runId, events[m.start - 1].name, m.start, m.end,
                    ToolCallId(events[m.end - 1]))
  }

  function LineText(n: nat): string {
    if n < 10 then ["0123456789"[n]] else LineText(n / 10) + ["0123456789"[n % 10]]
  }

  function ArchiveRef(digest: string, line: nat, pointer: string): string {
    "langchain-archive:" + digest + "#L" + LineText(line) + "#" + pointer
  }

  function KnownFrom<T>(value: T, source: string): E.Observation<T> {
    E.Observation(E.Known, Some(value), Some(source), None)
  }

  const PRODUCER_REF := "kerniq:external-validator:0.6.3"
  const PROFILE_REF := "kerniq:profile:langchain-create-agent-tool-run-jsonl-v0.1:0.1.0"

  function RequestRecordOf(digest: string, m: MatchedIdentity): E.RequestRecord {
    E.RequestRecord(None, Some(m.toolCallId),
                    Some("langchain-tool-run:" + digest + ":" + m.rootRunId + ":" + m.toolRunId),
                    Some("langchain-archive:" + digest
                         + ":producer=langchain@1.4.0+core@1.6.2+langgraph@1.2.11+prebuilt@1.1.0"),
                    Some(m.toolName), None, E.Identity(false, None, None, Some("metadata_tags_are_not_authentication")))
  }

  /** The evidence of one successful tool run: what was requested, that it completed, and
      that its source reports success; everything else stays unknown. */
  function BuildEvidence(host: Host, digest: string, m: MatchedIdentity): E.Document {
    var startRef := ArchiveRef(digest, m.startLine, "/data/input");
    var terminalRef := ArchiveRef(digest, m.endLine, "/data/output/kwargs");
    E.Document(
      E.SCHEMA_VERSION, Some("kerniq-external-validator:" + digest + ":" + host.salt(m.toolRunId)),
      Some(PRODUCER_REF), Some(PROFILE_REF),
      Some(host.now), None,
      KnownFrom(RequestRecordOf(digest, m), startRef),
      E.Unobserved("no_policy_decision_receipt_in_source"), E.Unobserved("no_authorization_receipt_in_source"),
      KnownFrom(E.ArgumentsRecord(Some(startRef), None, None, None), startRef),
      E.Unobserved("no_post_decision_snapshot_in_source"), E.Unobserved("no_physical_entry_observation_in_source"),
      E.Unobserved("no_scope_record_in_source"), E.Unobserved("no_positive_authorization_to_compare"),
      E.Unobserved("no_release_receipt_in_source"), E.Unobserved("no_dispatch_receipt_in_source"),
      E.Unobserved("on_tool_start_is_not_physical_entry"),
      KnownFrom(E.StageRecord(true, None), terminalRef),
      KnownFrom(E.OutcomeRecord("success", None, Some(terminalRef)), terminalRef))
  }

  lemma PrefixNotBlank(prefix: string, rest: string)
    requires prefix != [] && 'a' <= prefix[0] <= 'z'
    ensures !Blank(prefix + rest)
  {
    E.LetterNotBlank(prefix + rest);
  }

  lemma RefsNotBlank(digest: string, line: nat, pointer: string)
    ensures !Blank(ArchiveRef(digest, line, pointer))
  {
    E.LetterNotBlank(ArchiveRef(digest, line, pointer));
  }

  lemma RequestIsValid(digest: string, m: MatchedIdentity)
    ensures E.RequestOk(RequestRecordOf(digest, m)) <==> !Blank(m.toolCallId) && !Blank(m.toolName)
  {
    hide Blank;
    PrefixNotBlank("langchain-tool-run:", digest + ":" + m.rootRunId + ":" + m.toolRunId);
    assert "langchain-tool-run:" + (digest + ":" + m.rootRunId + ":" + m.toolRunId)
        == "langchain-tool-run:" + digest + ":" + m.rootRunId + ":" + m.toolRunId;
    var producer := ":producer=langchain@1.4.0+core@1.6.2+langgraph@1.2.11+prebuilt@1.1.0";
    PrefixNotBlank("langchain-archive:", digest + producer);
    assert "langchain-archive:" + (digest + producer) == "langchain-archive:" + digest + producer;
    E.LetterNotBlank("metadata_tags_are_not_authentication");
  }

  lemma UnknownsAreValid(wellFormed: string -> bool)
    ensures E.Observed(E.Unobserved("no_policy_decision_receipt_in_source"), false, x => E.DecisionOk(wellFormed, x))
    ensures E.Observed(E.Unobserved("no_authorization_receipt_in_source"), true, x => E.AuthorizationOk(wellFormed, x))
    ensures E.Observed(E.Unobserved("no_post_decision_snapshot_in_source"), false, E.ArgumentsOk)
    ensures E.Observed(E.Unobserved("no_physical_entry_observation_in_source"), true, E.ArgumentsOk)
    ensures E.Observed(E.Unobserved("no_scope_record_in_source"), false, E.ScopeOk)
    ensures E.Observed(E.Unobserved("no_positive_authorization_to_compare"), true, E.MatchOk)
  {
    hide E.Observed, E.Unobserved, E.DecisionOk, E.AuthorizationOk, E.ArgumentsOk, E.ScopeOk, E.MatchOk;
    E.UnobservedIsValid("no_policy_decision_receipt_in_source", false, x => E.DecisionOk(wellFormed, x));
    E.UnobservedIsValid("no_authorization_receipt_in_source", true, x => E.AuthorizationOk(wellFormed, x));
    E.UnobservedIsValid("no_post_decision_snapshot_in_source", false, E.ArgumentsOk);
    E.UnobservedIsValid("no_physical_entry_observation_in_source", true, E.ArgumentsOk);
    E.UnobservedIsValid("no_scope_record_in_source", false, E.ScopeOk);
    E.UnobservedIsValid("no_positive_authorization_to_compare", true, E.MatchOk);
  }

  lemma UnknownStagesAreValid(wellFormed: string -> bool)
    ensures E.Observed(E.Unobserved("no_release_receipt_in_source"), false, x => E.StageOk(wellFormed, x))
    ensures E.Observed(E.Unobserved("no_dispatch_receipt_in_source"), false, x => E.StageOk(wellFormed, x))
    ensures E.Observed(E.Unobserved("on_tool_start_is_not_physical_entry"), false, x => E.StageOk(wellFormed, x))
  {
    hide E.Observed, E.Unobserved, E.StageOk;
    E.UnobservedIsValid("no_release_receipt_in_source", false, x => E.StageOk(wellFormed, x));
    E.UnobservedIsValid("no_dispatch_receipt_in_source", false, x => E.StageOk(wellFormed, x));
    E.UnobservedIsValid("on_tool_start_is_not_physical_entry", false, x => E.StageOk(wellFormed, x));
  }

  lemma KnownsAreValid(wellFormed: string -> bool, digest: string, m: MatchedIdentity)
    ensures var startRef := ArchiveRef(digest, m.startLine, "/data/input");
      var terminalRef := ArchiveRef(digest, m.endLine, "/data/output/kwargs");
      && (E.Observed(KnownFrom(RequestRecordOf(digest, m), startRef), false, E.RequestOk)
          <==> !Blank(m.toolCallId) && !Blank(m.toolName))
      && E.Observed(KnownFrom(E.ArgumentsRecord(Some(startRef), None, None, None), startRef), false, E.ArgumentsOk)
      && E.Observed(KnownFrom(E.StageRecord(true, None), terminalRef), false, x => E.StageOk(wellFormed, x))
      && E.Observed(KnownFrom(E.OutcomeRecord("success", None, Some(terminalRef)), terminalRef), false, E.OutcomeOk)
  {
    hide Blank, ArchiveRef, RequestRecordOf, E.RequestOk;
    RequestIsValid(digest, m);
    RefsNotBlank(digest, m.startLine, "/data/input");
    RefsNotBlank(digest, m.endLine, "/data/output/kwargs");
  }

  /** The conformance check accepts the evidence exactly when the tool's name and its call
      id are not blank. */
  lemma EvidenceIsValidExactly(host: Host, digest: string, m: MatchedIdentity)
    requires host.wellFormed(host.now)
    ensures E.ValidDocument(host.wellFormed, BuildEvidence(host, digest, m)) <==>
        !Blank(m.toolCallId) && !Blank(m.toolName)
  {
    hide Blank, ArchiveRef, RequestRecordOf, KnownFrom, E.Unobserved, E.Observed;
    PrefixNotBlank("kerniq-external-validator:", digest + ":" + host.salt(m.toolRunId));
    assert "kerniq-external-validator:" + (digest + ":" + host.salt(m.toolRunId))
        == "kerniq-external-validator:" + digest + ":" + host.salt(m.toolRunId);
    ProducerNotBlank();
    UnknownsAreValid(host.wellFormed);
    UnknownStagesAreValid(host.wellFormed);
    KnownsAreValid(host.wellFormed, digest, m);
  }

  lemma ProducerNotBlank()
    ensures !Blank(PRODUCER_REF) && !Blank(PROFILE_REF)
  {
    E.LetterNotBlank(PRODUCER_REF);
    assert PROFILE_REF[|PROFILE_REF| - 1] == '0';
    E.NotBlank(PROFILE_REF, |PROFILE_REF| - 1);
  }

  // ---------- the whole validation ----------

  datatype Validation = Validation(outcome: Outcome, diagnostics: seq<Diagnostic>, matched: Option<Matched>,
                                   evidence: Option<E.Document>, excluded: seq<int>)

  /** The source was loaded without refusal, its envelopes are valid, and it qualifies. */
  ghost predicate SourceQualifies(host: Host, loaded: Loaded) {
    && !HasRefusal(loaded.diagnostics) && Enveloped(loaded.records)
    && Qualifies(host.dumps, EventsOf(loaded.records))
  }

  /** What the stages find in a loaded source. */
  function SourceDiagnosis(dumps: Value -> string, loaded: Loaded): Diagnosis {
    var events, envelopes := EventsOf(loaded.records), EnvelopeReports(loaded.records);
    if HasRefusal(loaded.diagnostics) then Diagnosis(loaded.diagnostics, None, [])
    else if envelopes != [] then
      Diagnosis(loaded.diagnostics + envelopes + OpaqueReports(events), None, Lines(events, IsOpaqueCarrier()))
    else
      var found := EventDiagnosis(dumps, events);
      Diagnosis(loaded.diagnostics + found.diagnostics, found.matched, found.excluded)
  }

  /** The stages, each run only when no earlier one refused; opaque records are reported
      also when envelopes are refused. */
  method Diagnose(host: Host, loaded: Loaded)
    returns (diagnostics: seq<Diagnostic>, matched: Option<Matched>, excluded: seq<int>)
    ensures !HasRefusal(diagnostics) <==> SourceQualifies(host, loaded)
    ensures !HasRefusal(diagnostics) ==>
              && matched.Some?
              && LifecycleOk(host.dumps, EventsOf(loaded.records), matched.value.start - 1, matched.value.end - 1,
                             matched.value.rootEnd - 1)
    ensures loaded.diagnostics <= diagnostics
    ensures !HasRefusal(diagnostics) ==>
              && diagnostics == loaded.diagnostics + OpaqueReports(EventsOf(loaded.records))
              && excluded == Lines(EventsOf(loaded.records), IsOpaqueCarrier())
    ensures Diagnosis(diagnostics, matched, excluded) == SourceDiagnosis(host.dumps, loaded)
  {
    hide HasRefusal, Enveloped, Qualifies, LifecycleOk, Lines, Transparent, OpaqueReports, EnvelopeReports,
         EventDiagnosis;
    diagnostics, matched, excluded := loaded.diagnostics, None, [];
    if !HasRefusal(diagnostics) {
      var events := EventsOf(loaded.records);
      var found := ValidateEnvelopes(loaded.records);
      RefusalsShow(found);
      RefusalConcat(diagnostics, found);
      diagnostics := diagnostics + found;
      var more: seq<Diagnostic>;
      if !HasRefusal(diagnostics) {
        matched, more, excluded := ValidateEvents(host.dumps, events);
      } else {
        more, excluded := EnforceOpaqueExclusions(events);
      }
      RefusalConcat(diagnostics, more);
      diagnostics := diagnostics + more;
    }
  }

  /** The evidence of a match that names the lines of a lifecycle. */
  ghost predicate Tells(host: Host, loaded: Loaded, m: Matched, document: E.Document) {
    var events := EventsOf(loaded.records);
    && LifecycleOk(host.dumps, events, m.start - 1, m.end - 1, m.rootEnd - 1)
    && 1 <= m.start <= |events| && 1 <= m.end <= |events|
    && document == BuildEvidence(host, loaded.digest, IdentityOf(events, m))
  }

  /** A validation of a source: what the stages find, refused further when the bytes have
      changed; and, when it is asked for, the evidence of a source that qualifies. */
  ghost predicate Validated(host: Host, loaded: Loaded, mapEvidence: bool, sameBytes: bool, v: Validation) {
    var found := SourceDiagnosis(host.dumps, loaded);
    && v.diagnostics == found.diagnostics
                        + (if HasRefusal(found.diagnostics) || sameBytes then []
                           else [Diagnostic(SourceBindingFailure, StableBytes, 0)])
    && v.outcome == SelectResult(v.diagnostics) && v.matched == found.matched && v.excluded == found.excluded
    && (v.evidence.Some? <==> mapEvidence && SourceQualifies(host, loaded))
    && (v.evidence.Some? ==> v.matched.Some? && Tells(host, loaded, v.matched.value, v.evidence.value))
  }

  /** Two validations of one source, of whatever result, differ in the time of the evidence
      only. */
  lemma RevalidationDiffersInTime(host: Host, later: string, loaded: Loaded, mapEvidence: bool, sameBytes: bool,
                                  v: Validation, w: Validation)
    requires Validated(host, loaded, mapEvidence, sameBytes, v)
    requires Validated(host.(now := later), loaded, mapEvidence, sameBytes, w)
    ensures w == if v.evidence.None? then v
                 else v.(evidence := Some(v.evidence.value.(recordedAt := Some(later))))
  {
    hide LifecycleOk, SourceDiagnosis, BuildEvidence, IdentityOf, EventOf, Qualifies, SelectResult, HasRefusal,
         Enveloped;
    if v.evidence.Some? {
      EvidenceTime(host, later, loaded.digest, IdentityOf(EventsOf(loaded.records), v.matched.value));
    }
  }

  lemma EvidenceTime(host: Host, later: string, digest: string, m: MatchedIdentity)
    ensures BuildEvidence(host.(now := later), digest, m) == BuildEvidence(host, digest, m).(recordedAt := Some(later))
  {}

  lemma LifecycleNames(host: Host, records: seq<Record>, start: int, end: int, rootEnd: int)
    requires Enveloped(records) && LifecycleOk(host.dumps, EventsOf(records), start, end, rootEnd)
    ensures 0 <= start < |records| && 0 <= end < |records|
    ensures !Blank(EventsOf(records)[start].name) && !Blank(ToolCallId(EventsOf(records)[end]))
  {
    hide Get, Blank, Plain, Only, HasMarker;
    var events := EventsOf(records);
    OnlyInRange(events, IsKind(TOOL_START));
    OnlyInRange(events, IsKind(TOOL_END));
    assert EnvelopeOk(records[start]);
    assert RunOk(host.dumps, events[0].runId, events[start], events[end]);
  }

  /** The mapping of a match: the conformance check accepts what is mapped. */
  method MapEvidence(host: Host, loaded: Loaded, m: Matched) returns (evidence: Option<E.Document>)
    requires host.wellFormed(host.now) && Enveloped(loaded.records)
    requires LifecycleOk(host.dumps, EventsOf(loaded.records), m.start - 1, m.end - 1, m.rootEnd - 1)
    ensures evidence.Some? && E.ValidDocument(host.wellFormed, evidence.value) && Tells(host, loaded, m, evidence.value)
  {
    hide LifecycleOk, E.ValidDocument, BuildEvidence, EventOf;
    var events := EventsOf(loaded.records);
    LifecycleNames(host, loaded.records, m.start - 1, m.end - 1, m.rootEnd - 1);
    var identity := IdentityOf(events, m);
    EvidenceIsValidExactly(host, loaded.digest, identity);
    var document := BuildEvidence(host, loaded.digest, identity);
    evidence := if E.ValidDocument(host.wellFormed, document) then Some(document) else None;
  }

  /** The validation of a source. Its evidence, when it is asked for, is there exactly when
      the source qualifies: the conformance check never refuses the mapped document, so that
      its refusal never decides the result. The source passes exactly when it qualifies and
      its bytes are still those that were loaded. */
  method ValidateSource(host: Host, loaded: Loaded, mapEvidence: bool, sameBytes: bool) returns (v: Validation)
    requires host.wellFormed(host.now)
    ensures v.evidence.Some? <==> mapEvidence && SourceQualifies(host, loaded)
    ensures v.outcome == Passed <==> SourceQualifies(host, loaded) && sameBytes
    ensures v.outcome == SelectResult(v.diagnostics)
    ensures SourceQualifies(host, loaded) && !sameBytes ==> v.outcome == ValidationError
    ensures v.evidence.Some? ==>
              && E.ValidDocument(host.wellFormed, v.evidence.value)
              && v.matched.Some? && Tells(host, loaded, v.matched.value, v.evidence.value)
    ensures SourceQualifies(host, loaded) && sameBytes ==>
              && v.diagnostics == loaded.diagnostics + OpaqueReports(EventsOf(loaded.records))
              && v.excluded == Lines(EventsOf(loaded.records), IsOpaqueCarrier())
    ensures Validated(host, loaded, mapEvidence, sameBytes, v)
  {
    hide LifecycleOk, SourceQualifies, E.ValidDocument, Tells, HasRefusal, SelectResult, OpaqueReports, Lines, EventOf,
         SourceDiagnosis;
    var diagnostics, matched, excluded := Diagnose(host, loaded);
    var evidence: Option<E.Document>, kitFailed := None, false;
    if !HasRefusal(diagnostics) && mapEvidence {
      assert Enveloped(loaded.records) by { QualifyingIsEnveloped(host, loaded); }
      evidence := MapEvidence(host, loaded, matched.value);
      kitFailed := evidence.None?;
    }
    if !kitFailed && !HasRefusal(diagnostics) && !sameBytes {
      BindingRefuses(diagnostics);
      diagnostics := diagnostics + [Diagnostic(SourceBindingFailure, StableBytes, 0)];
    }
    ResultIsGravest(diagnostics);
    v := Validation(if kitFailed then ValidationError else SelectResult(diagnostics), diagnostics, matched,
                    evidence, excluded);
  }

  lemma QualifyingIsEnveloped(host: Host, loaded: Loaded)
    requires SourceQualifies(host, loaded)
    ensures Enveloped(loaded.records)
  {}

  /** A source whose bytes have changed ends in the gravest result. */
  lemma BindingRefuses(ds: seq<Diagnostic>)
    ensures var all := ds + [Diagnostic(SourceBindingFailure, StableBytes, 0)];
            HasRefusal(all) && SelectResult(all) == ValidationError
  {
    var all := ds + [Diagnostic(SourceBindingFailure, StableBytes, 0)];
    assert all[|ds|] in all && Refuses(all[|ds|]) && CodeOutcome(all[|ds|].code) == ValidationError;
  }
}
