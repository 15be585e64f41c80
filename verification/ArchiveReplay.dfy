/** An artifact written from one validation of a source, verified by another: both share all
    but the time of the evidence. */
module ArchiveReplay {
  import opened Wrappers
  import opened Utf8Order
  import opened CanonicalRoundTrip
  import opened CanonicalValues
  import opened ArchiveValidation
  import A = ArtifactVerifier
  import E = EvidenceDocument

  /** How a validation is written: text, the evidence apart from its time, and the other
      shareable fields, which do not depend on that time. */
  datatype Writer = Writer(text: string -> Text, document: E.Document -> map<Text, Value>,
                           rest: Validation -> map<Text, Value>)

  const UNTIMED := ""

  function Untimed(d: E.Document): E.Document { d.(recordedAt := Some(UNTIMED)) }

  function EvidenceFields(writer: Writer, d: E.Document): map<Text, Value> {
    var time := if d.recordedAt.Some? then d.recordedAt.value else UNTIMED;
    writer.document(Untimed(d))[A.RECORDED_AT := StrValue(writer.text(time))]
  }

  function WithoutTime(v: Validation): Validation {
    if v.evidence.Some? then v.(evidence := Some(Untimed(v.evidence.value))) else v
  }

  /** What the artifact is built from. */
  function OutcomeOf(writer: Writer, loaded: Loaded, v: Validation): A.Outcome {
    A.Outcome(writer.text(loaded.digest), loaded.length,
              if v.evidence.Some? then Some(EvidenceFields(writer, v.evidence.value)) else None,
              writer.rest(WithoutTime(v)))
  }

  /** The outcomes of two validations of one source, whether it qualifies or not, differ in
      the time of the evidence only. */
  lemma RevalidationIsSameButTime(host: Host, later: string, loaded: Loaded, mapEvidence: bool, sameBytes: bool,
                                  v: Validation, w: Validation, writer: Writer)
    requires Validated(host, loaded, mapEvidence, sameBytes, v)
    requires Validated(host.(now := later), loaded, mapEvidence, sameBytes, w)
    ensures A.SameButTime(OutcomeOf(writer, loaded, v), OutcomeOf(writer, loaded, w))
  {
    hide Validated, A.RECORDED_AT, A.RUN_METADATA;
    RevalidationDiffersInTime(host, later, loaded, mapEvidence, sameBytes, v, w);
    if v.evidence.Some? {
      var fields := writer.document(Untimed(v.evidence.value));
      assert Untimed(w.evidence.value) == Untimed(v.evidence.value);
      assert EvidenceFields(writer, v.evidence.value)[A.RECORDED_AT := A.RUN_METADATA]
          == fields[A.RECORDED_AT := A.RUN_METADATA];
      assert EvidenceFields(writer, w.evidence.value)[A.RECORDED_AT := A.RUN_METADATA]
          == fields[A.RECORDED_AT := A.RUN_METADATA];
    }
  }

  /** The round trip from the source: an artifact written from one validation of it, passed
      or refused, verifies against another, made at any later time, exactly when the source
      has a digest. */
  lemma RevalidationVerifiesExactly(host: Host, later: string, loaded: Loaded, mapEvidence: bool, sameBytes: bool,
                                    v: Validation, w: Validation, writer: Writer, kit: A.Host, run: A.Run)
    requires Validated(host, loaded, mapEvidence, sameBytes, v)
    requires Validated(host.(now := later), loaded, mapEvidence, sameBytes, w)
    requires A.HostOk(kit) && A.RunOk(kit, run)
    requires A.OutcomeOk(kit, OutcomeOf(writer, loaded, v)) && A.OutcomeOk(kit, OutcomeOf(writer, loaded, w))
    ensures IsJson(kit.python, ObjValue(A.BuildEnvelope(kit, OutcomeOf(writer, loaded, v), run)))
    ensures A.Verified(kit, FileOf(kit.python, A.BuildEnvelope(kit, OutcomeOf(writer, loaded, v), run)),
                       OutcomeOf(writer, loaded, w))
       <==> writer.text(loaded.digest) != []
  {
    hide Validated, A.OutcomeOk, A.HostOk, A.RunOk, A.BuildEnvelope, A.Verified, A.SameButTime;
    RevalidationIsSameButTime(host, later, loaded, mapEvidence, sameBytes, v, w, writer);
    A.ArtifactVerifiesExactly(kit, OutcomeOf(writer, loaded, v), OutcomeOf(writer, loaded, w), run);
  }
}
