/** Validation artifacts: an envelope with its own digest, and its verification against a
    replay of the validation. */
module ArtifactVerifier {
  import opened Wrappers
  import opened Utf8Order
  import opened CanonicalRoundTrip
  import opened CanonicalValues

  function Ascii(s: string): Text { seq(|s|, i requires 0 <= i < |s| => if s[i] <= '~' then s[i] as int else 0) }

  const DIGEST := Ascii("artifact_digest")
  const SOURCE := Ascii("source_digest")
  const EVIDENCE := Ascii("evidence")
  const RECORDED_AT := Ascii("recorded_at")
  const VALUE := Ascii("value")
  const ALGORITHM := Ascii("algorithm")
  const CANONICALIZATION := Ascii("canonicalization")
  const REPRESENTATION := Ascii("representation")
  const BYTE_LENGTH := Ascii("byte_length")
  const PROFILE_ID := Ascii("profile_id")
  const PROFILE_VERSION := Ascii("profile_version")
  const STARTED_AT := Ascii("validation_started_at")
  const COMPLETED_AT := Ascii("validation_completed_at")
  const DURATION := Ascii("duration_ms")
  const VALIDATION_ID := Ascii("validation_id")
  const RUN_KEYS := {STARTED_AT, COMPLETED_AT, DURATION, VALIDATION_ID}
  const SHA256 := StrValue(Ascii("sha256"))
  const CANONICAL_FORM := StrValue(Ascii("kerniq-json-canonical-v1"))
  const RUN_METADATA := StrValue(Ascii("<run-metadata>"))

  /** The clock facts of one run of the tool. */
  datatype Run = Run(startedAt: Text, completedAt: Text, duration: int, id: Text)

  /** What a validation yields. `rest` are the shareable fields apart from the source
      record and the evidence: versions, result, claims, diagnostics, lineage, privacy. */
  datatype Outcome = Outcome(sourceDigest: Text, byteLength: int, evidence: Option<map<Text, Value>>,
                             rest: map<Text, Value>)

  /** The frozen profile, SHA-256 as hexadecimal text, and the interpreter. */
  datatype Host = Host(profileId: Value, profileVersion: Value, representation: Text, hash: seq<int> -> Text,
                       python: Interpreter)

  ghost predicate AllJson(host: Host, m: map<Text, Value>) {
    forall k <- m :: WellFormed(k) && IsJson(host.python, m[k])
  }

  ghost predicate OutcomeOk(host: Host, o: Outcome) {
    && WellFormed(o.sourceDigest) && IntegerFits(host.python, o.byteLength) && AllJson(host, o.rest)
    && o.rest.Keys !! {DIGEST, SOURCE, EVIDENCE} + RUN_KEYS
    && PROFILE_ID in o.rest && o.rest[PROFILE_ID] == host.profileId
    && PROFILE_VERSION in o.rest && o.rest[PROFILE_VERSION] == host.profileVersion
    && (o.evidence.Some? ==> AllJson(host, o.evidence.value) && RECORDED_AT in o.evidence.value)
  }

  /** A limit on digits is never below 640. */
  ghost predicate HostOk(host: Host) {
    && WellFormed(host.representation) && (forall b :: WellFormed(host.hash(b)))
    && (host.python.digitLimit == 0 || host.python.digitLimit >= 640)
  }

  function SourceRecord(host: Host, o: Outcome): Value {
    if o.sourceDigest == [] then NullValue
    else ObjValue(map[ALGORITHM := SHA256, REPRESENTATION := StrValue(host.representation),
                      VALUE := StrValue(o.sourceDigest),
                      BYTE_LENGTH := NumValue(o.byteLength)])
  }

  function EvidenceOf(o: Outcome): Value { match o.evidence case None => NullValue case Some(e) => ObjValue(e) }

  /** The envelope without its digest. */
  function Body(host: Host, o: Outcome, run: Run): map<Text, Value> {
    o.rest[SOURCE := SourceRecord(host, o)][EVIDENCE := EvidenceOf(o)]
      [STARTED_AT := StrValue(run.startedAt)][COMPLETED_AT := StrValue(run.completedAt)]
      [DURATION := NumValue(if run.duration < 0 then 0 else run.duration)][VALIDATION_ID := StrValue(run.id)]
  }

  /** The digest of an envelope: of the canonical bytes of all of it but the digest. */
  ghost function ArtifactDigest(host: Host, envelope: map<Text, Value>): Text {
    var body := ObjValue(envelope - {DIGEST});
    if IsJson(host.python, body) && WellFormed(CanonicalText(host.python, body))
    then host.hash(Encode(CanonicalText(host.python, body))) else []
  }

  ghost function BuildEnvelope(host: Host, o: Outcome, run: Run): map<Text, Value> {
    var body := Body(host, o, run);
    body[DIGEST := ObjValue(map[ALGORITHM := SHA256, CANONICALIZATION := CANONICAL_FORM,
                                VALUE := StrValue(ArtifactDigest(host, body))])]
  }

  /** Everything but the metadata of the run and the digest. */
  function Semantic(envelope: map<Text, Value>): map<Text, Value> {
    var out := envelope - (RUN_KEYS + {DIGEST});
    if EVIDENCE in out && out[EVIDENCE].ObjValue? && RECORDED_AT in out[EVIDENCE].members
    then out[EVIDENCE := ObjValue(out[EVIDENCE].members[RECORDED_AT := RUN_METADATA])]
    else out
  }

  predicate FieldIs(m: map<Text, Value>, key: Text, v: Value) { key in m && m[key] == v }

  predicate ObjectAt(m: map<Text, Value>, key: Text) { key in m && m[key].ObjValue? }

  ghost predicate SameText(host: Host, a: map<Text, Value>, b: map<Text, Value>) {
    && IsJson(host.python, ObjValue(a)) && IsJson(host.python, ObjValue(b))
    && CanonicalText(host.python, ObjValue(a)) == CanonicalText(host.python, ObjValue(b))
  }

  const REPLAY := Run(Ascii("replay"), Ascii("replay"), 0, Ascii("replay"))

  /** Verification against the outcome of a fresh validation of the source. */
  ghost predicate Verified(host: Host, file: Text, replayed: Outcome) {
    match ParseArtifact(host.python, file)
    case None => false
    case Some(artifact) =>
      && ObjectAt(artifact, DIGEST)
      && FieldIs(artifact[DIGEST].members, ALGORITHM, SHA256)
      && FieldIs(artifact[DIGEST].members, CANONICALIZATION, CANONICAL_FORM)
      && FieldIs(artifact[DIGEST].members, VALUE, StrValue(ArtifactDigest(host, artifact)))
      && FieldIs(artifact, PROFILE_ID, host.profileId) && FieldIs(artifact, PROFILE_VERSION, host.profileVersion)
      && ObjectAt(artifact, SOURCE) && FieldIs(artifact[SOURCE].members, VALUE, StrValue(replayed.sourceDigest))
      && SameText(host, Semantic(artifact), Semantic(BuildEnvelope(host, replayed, REPLAY)))
  }

  // ---------- keys ----------

  lemma AsciiWellFormed(s: string)
    ensures WellFormed(Ascii(s))
  {
    PlainUnits(Ascii(s));
  }

  lemma AsciiDiffer(s: string, t: string)
    requires s != [] && t != [] && (|s| != |t| || s[0] != t[0]) && s[0] <= '~' && t[0] <= '~'
    ensures Ascii(s) != Ascii(t)
  {
    if |s| == |t| { assert Ascii(s)[0] == s[0] as int && Ascii(t)[0] == t[0] as int; }
  }

  lemma NamedKeysDiffer()
    ensures DIGEST != SOURCE && DIGEST != EVIDENCE && SOURCE != EVIDENCE
    ensures DIGEST !in RUN_KEYS && SOURCE !in RUN_KEYS && EVIDENCE !in RUN_KEYS
  {
    hide Ascii;
    AsciiDiffer("artifact_digest", "source_digest");
    AsciiDiffer("artifact_digest", "evidence");
    AsciiDiffer("source_digest", "evidence");
    AsciiDiffer("artifact_digest", "validation_started_at");
    AsciiDiffer("artifact_digest", "validation_completed_at");
    AsciiDiffer("artifact_digest", "duration_ms");
    AsciiDiffer("artifact_digest", "validation_id");
    SourceDiffers();
    EvidenceDiffers();
  }

  lemma SourceDiffers()
    ensures SOURCE !in RUN_KEYS
  {
    hide Ascii;
    AsciiDiffer("source_digest", "validation_started_at");
    AsciiDiffer("source_digest", "validation_completed_at");
    AsciiDiffer("source_digest", "duration_ms");
    AsciiDiffer("source_digest", "validation_id");
  }

  lemma EvidenceDiffers()
    ensures EVIDENCE !in RUN_KEYS
  {
    hide Ascii;
    AsciiDiffer("evidence", "validation_started_at");
    AsciiDiffer("evidence", "validation_completed_at");
    AsciiDiffer("evidence", "duration_ms");
    AsciiDiffer("evidence", "validation_id");
  }

  lemma DigestKeysDiffer()
    ensures ALGORITHM != CANONICALIZATION && ALGORITHM != VALUE && CANONICALIZATION != VALUE
    ensures REPRESENTATION != VALUE && BYTE_LENGTH != VALUE && ALGORITHM != BYTE_LENGTH
  {
    hide Ascii;
    AsciiDiffer("algorithm", "canonicalization");
    AsciiDiffer("algorithm", "value");
    AsciiDiffer("canonicalization", "value");
    AsciiDiffer("representation", "value");
    AsciiDiffer("byte_length", "value");
    AsciiDiffer("algorithm", "byte_length");
  }

  lemma KeysWellFormed()
    ensures WellFormed(DIGEST) && WellFormed(SOURCE) && WellFormed(EVIDENCE) && WellFormed(RECORDED_AT)
    ensures WellFormed(VALUE)
    ensures WellFormed(ALGORITHM) && WellFormed(CANONICALIZATION) && WellFormed(REPRESENTATION)
    ensures WellFormed(BYTE_LENGTH)
    ensures forall k <- RUN_KEYS :: WellFormed(k)
  {
    hide WellFormed, Ascii;
    forall s: string ensures WellFormed(Ascii(s)) { AsciiWellFormed(s); }
  }

  lemma ConstantsAreJson(host: Host)
    ensures IsJson(host.python, SHA256) && IsJson(host.python, CANONICAL_FORM) && IsJson(host.python, RUN_METADATA)
  {
    hide WellFormed, Ascii, IsJson;
    AsciiWellFormed("sha256");
    AsciiWellFormed("kerniq-json-canonical-v1");
    AsciiWellFormed("<run-metadata>");
    StringIsJson(host.python, Ascii("sha256"));
    StringIsJson(host.python, Ascii("kerniq-json-canonical-v1"));
    StringIsJson(host.python, Ascii("<run-metadata>"));
  }

  lemma ReplayOk(host: Host)
    requires HostOk(host)
    ensures RunOk(host, REPLAY)
  {
    hide WellFormed, Ascii;
    AsciiWellFormed("replay");
  }

  // ---------- envelopes are JSON ----------

  lemma UpdateJson(host: Host, m: map<Text, Value>, k: Text, v: Value)
    requires AllJson(host, m) && WellFormed(k) && IsJson(host.python, v)
    ensures AllJson(host, m[k := v])
  {}

  lemma RecordsAreJson(host: Host, o: Outcome)
    requires HostOk(host) && OutcomeOk(host, o)
    ensures IsJson(host.python, SourceRecord(host, o)) && IsJson(host.python, EvidenceOf(o))
  {
    hide WellFormed, IsJson;
    KeysWellFormed();
    ConstantsAreJson(host);
    NullIsJson(host.python);
    NumbersAreJson(host.python, o.byteLength, []);
    StringIsJson(host.python, host.representation);
    StringIsJson(host.python, o.sourceDigest);
    if o.sourceDigest != [] { MapIsJson(host.python, SourceRecord(host, o).members); }
    if o.evidence.Some? { MapIsJson(host.python, o.evidence.value); }
  }

  predicate RunOk(host: Host, run: Run) {
    WellFormed(run.startedAt) && WellFormed(run.completedAt) && WellFormed(run.id)
    && IntegerFits(host.python, run.duration)
  }

  lemma BodyIsJson(host: Host, o: Outcome, run: Run)
    requires HostOk(host) && OutcomeOk(host, o) && RunOk(host, run)
    ensures AllJson(host, Body(host, o, run))
  {
    hide WellFormed, IsJson, SourceRecord, EvidenceOf, AllJson;
    assert AllJson(host, o.rest);
    KeysWellFormed();
    ConstantsAreJson(host);
    RecordsAreJson(host, o);
    StringIsJson(host.python, run.startedAt);
    StringIsJson(host.python, run.completedAt);
    StringIsJson(host.python, run.id);
    var duration := if run.duration < 0 then 0 else run.duration;
    NumbersAreJson(host.python, duration, []);
    var a := o.rest[SOURCE := SourceRecord(host, o)];
    UpdateJson(host, o.rest, SOURCE, SourceRecord(host, o));
    var b := a[EVIDENCE := EvidenceOf(o)];
    UpdateJson(host, a, EVIDENCE, EvidenceOf(o));
    var c := b[STARTED_AT := StrValue(run.startedAt)];
    UpdateJson(host, b, STARTED_AT, StrValue(run.startedAt));
    var d := c[COMPLETED_AT := StrValue(run.completedAt)];
    UpdateJson(host, c, COMPLETED_AT, StrValue(run.completedAt));
    var e := d[DURATION := NumValue(duration)];
    UpdateJson(host, d, DURATION, NumValue(duration));
    UpdateJson(host, e, VALIDATION_ID, StrValue(run.id));
  }

  /** The record of a digest, which an envelope carries under its digest key. */
  function DigestRecord(digest: Text): Value {
    ObjValue(map[ALGORITHM := SHA256, CANONICALIZATION := CANONICAL_FORM, VALUE := StrValue(digest)])
  }

  lemma DigestIsWellFormed(host: Host, m: map<Text, Value>)
    requires HostOk(host)
    ensures WellFormed(ArtifactDigest(host, m))
  {
    hide Encode;
  }

  lemma EnvelopeIsJson(host: Host, o: Outcome, run: Run)
    requires HostOk(host) && OutcomeOk(host, o) && RunOk(host, run)
    ensures AllJson(host, BuildEnvelope(host, o, run))
  {
    hide WellFormed, IsJson, Body, ArtifactDigest, AllJson;
    var body := Body(host, o, run);
    var digest := ArtifactDigest(host, body);
    BodyIsJson(host, o, run);
    KeysWellFormed();
    ConstantsAreJson(host);
    DigestIsWellFormed(host, body);
    StringIsJson(host.python, digest);
    assert IsJson(host.python, DigestRecord(digest)) by { MapIsJson(host.python, DigestRecord(digest).members); }
    UpdateJson(host, body, DIGEST, DigestRecord(digest));
  }

  lemma SemanticIsJson(host: Host, m: map<Text, Value>)
    requires AllJson(host, m)
    ensures AllJson(host, Semantic(m))
  {
    hide WellFormed, IsJson;
    KeysWellFormed();
    ConstantsAreJson(host);
    if EVIDENCE in m && m[EVIDENCE].ObjValue? {
      JsonMap(host.python, m[EVIDENCE].members);
      UpdateJson(host, m[EVIDENCE].members, RECORDED_AT, RUN_METADATA);
      MapIsJson(host.python, m[EVIDENCE].members[RECORDED_AT := RUN_METADATA]);
    }
  }

  // ---------- main results ----------

  /** Two outcomes of the same source: only the time in the evidence may differ. */
  predicate SameButTime(o: Outcome, p: Outcome) {
    && o.sourceDigest == p.sourceDigest && o.byteLength == p.byteLength && o.rest == p.rest
    && (o.evidence.Some? <==> p.evidence.Some?)
    && (o.evidence.Some? && p.evidence.Some? ==>
          o.evidence.value[RECORDED_AT := RUN_METADATA] == p.evidence.value[RECORDED_AT := RUN_METADATA])
  }

  /** What the semantic part of an envelope is: the run leaves no trace in it. */
  lemma SemanticOfEnvelope(host: Host, o: Outcome, run: Run)
    requires OutcomeOk(host, o)
    ensures Semantic(BuildEnvelope(host, o, run))
         == o.rest[SOURCE := SourceRecord(host, o)]
                  [EVIDENCE := match o.evidence
                               case None => NullValue
                               case Some(e) => ObjValue(e[RECORDED_AT := RUN_METADATA])]
  {
    hide Ascii, WellFormed, ArtifactDigest, AllJson;
    NamedKeysDiffer();
    var envelope := BuildEnvelope(host, o, run);
    var out := envelope - (RUN_KEYS + {DIGEST});
    assert out == o.rest[SOURCE := SourceRecord(host, o)][EVIDENCE := EvidenceOf(o)];
  }

  lemma SemanticAgrees(host: Host, o: Outcome, p: Outcome, run: Run, replay: Run)
    requires OutcomeOk(host, o) && OutcomeOk(host, p) && SameButTime(o, p)
    ensures Semantic(BuildEnvelope(host, o, run)) == Semantic(BuildEnvelope(host, p, replay))
  {
    hide BuildEnvelope, Semantic, OutcomeOk;
    SemanticOfEnvelope(host, o, run);
    SemanticOfEnvelope(host, p, replay);
  }

  lemma EnvelopeFields(host: Host, o: Outcome, run: Run)
    requires OutcomeOk(host, o)
    ensures var envelope := BuildEnvelope(host, o, run);
            && envelope - {DIGEST} == Body(host, o, run)
            && FieldIs(envelope, DIGEST, DigestRecord(ArtifactDigest(host, Body(host, o, run))))
            && FieldIs(envelope, SOURCE, SourceRecord(host, o))
            && FieldIs(envelope, PROFILE_ID, host.profileId) && FieldIs(envelope, PROFILE_VERSION, host.profileVersion)
  {
    hide Ascii, WellFormed, ArtifactDigest, AllJson, SourceRecord, EvidenceOf;
    NamedKeysDiffer();
    var body := Body(host, o, run);
    assert DIGEST !in body;
    assert BuildEnvelope(host, o, run) - {DIGEST} == body;
    assert PROFILE_ID in o.rest && PROFILE_VERSION in o.rest;
  }

  lemma DigestIgnoresItself(host: Host, m: map<Text, Value>, n: map<Text, Value>)
    requires m - {DIGEST} == n - {DIGEST}
    ensures ArtifactDigest(host, m) == ArtifactDigest(host, n)
  {}

  lemma DigestRecordFields(digest: Text)
    ensures var d := DigestRecord(digest).members;
            FieldIs(d, ALGORITHM, SHA256) && FieldIs(d, CANONICALIZATION, CANONICAL_FORM)
            && FieldIs(d, VALUE, StrValue(digest))
  {
    hide Ascii;
    DigestKeysDiffer();
  }

  /** The round trip: an artifact written from a validation verifies against a later
      validation of the same source, whatever the metadata of its run, exactly when the
      source has a digest. */
  lemma ArtifactVerifiesExactly(host: Host, o: Outcome, p: Outcome, run: Run)
    requires HostOk(host) && OutcomeOk(host, o) && OutcomeOk(host, p) && SameButTime(o, p) && RunOk(host, run)
    ensures IsJson(host.python, ObjValue(BuildEnvelope(host, o, run)))
    ensures Verified(host, FileOf(host.python, BuildEnvelope(host, o, run)), p) <==> o.sourceDigest != []
  {
    hide WellFormed, IsJson, BuildEnvelope, Semantic, ArtifactDigest, AllJson, Body, OutcomeOk, Ascii, ParseArtifact,
         FileOf, DigestRecord;
    var envelope, body := BuildEnvelope(host, o, run), Body(host, o, run);
    var digest := ArtifactDigest(host, body);
    EnvelopeIsJson(host, o, run);
    AllIsJson(host, envelope);
    WrittenIsParsed(host.python, envelope);
    EnvelopeFields(host, o, run);
    DigestRecordFields(digest);
    assert DigestRecord(digest).ObjValue? by { DigestRecordIsObject(digest); }
    BodyWithoutDigest(host, o, run);
    DigestIgnoresItself(host, envelope, body);
    ReplayAgrees(host, o, p, run);
    SourceRecordValue(host, o);
  }

  /** Such a source exists: the outcome of a folder whose archive is not bound by its
      inventory. Its artifact is written, and no replay of the same source accepts it. */
  lemma UndigestedIsNeverVerified(host: Host) returns (o: Outcome)
    requires HostOk(host) && IsJson(host.python, host.profileId) && IsJson(host.python, host.profileVersion)
    ensures OutcomeOk(host, o) && SameButTime(o, o) && o.sourceDigest == [] && o.byteLength == 0
    ensures forall p, run | OutcomeOk(host, p) && SameButTime(o, p) && RunOk(host, run) ::
              && IsJson(host.python, ObjValue(BuildEnvelope(host, o, run)))
              && !Verified(host, FileOf(host.python, BuildEnvelope(host, o, run)), p)
  {
    hide IsJson, Verified, BuildEnvelope, RunOk, FileOf;
    o := UndigestedOutcome(host);
    forall p, run | OutcomeOk(host, p) && SameButTime(o, p) && RunOk(host, run)
      ensures IsJson(host.python, ObjValue(BuildEnvelope(host, o, run)))
           && !Verified(host, FileOf(host.python, BuildEnvelope(host, o, run)), p)
    {
      ArtifactVerifiesExactly(host, o, p, run);
    }
  }

  lemma UndigestedOutcome(host: Host) returns (o: Outcome)
    requires HostOk(host) && IsJson(host.python, host.profileId) && IsJson(host.python, host.profileVersion)
    ensures OutcomeOk(host, o) && o.sourceDigest == [] && o.byteLength == 0
  {
    hide IsJson, Ascii;
    o := Outcome([], 0, None, map[PROFILE_ID := host.profileId, PROFILE_VERSION := host.profileVersion]);
    ProfileKeys();
    assert WellFormed(o.sourceDigest);
    assert o.rest.Keys == {PROFILE_ID, PROFILE_VERSION};
  }

  lemma ProfileKeys()
    ensures PROFILE_ID != PROFILE_VERSION && WellFormed(PROFILE_ID) && WellFormed(PROFILE_VERSION)
    ensures {PROFILE_ID, PROFILE_VERSION} !! {DIGEST, SOURCE, EVIDENCE} + RUN_KEYS
  {
    hide Ascii, WellFormed;
    AsciiWellFormed("profile_id");
    AsciiWellFormed("profile_version");
    AsciiDiffer("profile_id", "profile_version");
    ProfileKeyIsOwn("profile_id");
    ProfileKeyIsOwn("profile_version");
  }

  lemma ProfileKeyIsOwn(key: string)
    requires key == "profile_id" || key == "profile_version"
    ensures Ascii(key) !in {DIGEST, SOURCE, EVIDENCE} + RUN_KEYS
  {
    hide Ascii;
    AsciiDiffer(key, "artifact_digest");
    AsciiDiffer(key, "source_digest");
    AsciiDiffer(key, "evidence");
    AsciiDiffer(key, "validation_started_at");
    AsciiDiffer(key, "validation_completed_at");
    AsciiDiffer(key, "duration_ms");
    AsciiDiffer(key, "validation_id");
  }

  lemma AllIsJson(host: Host, m: map<Text, Value>)
    requires AllJson(host, m)
    ensures IsJson(host.python, ObjValue(m))
  {
    hide IsJson, WellFormed;
    MapIsJson(host.python, m);
  }

  lemma DigestRecordIsObject(digest: Text)
    ensures DigestRecord(digest).ObjValue?
  {}

  lemma BodyWithoutDigest(host: Host, o: Outcome, run: Run)
    requires OutcomeOk(host, o)
    ensures BuildEnvelope(host, o, run) - {DIGEST} == Body(host, o, run) - {DIGEST}
  {
    hide Ascii, WellFormed, ArtifactDigest, AllJson, SourceRecord, EvidenceOf;
    EnvelopeFields(host, o, run);
    var body := Body(host, o, run);
    assert DIGEST !in BuildEnvelope(host, o, run) - {DIGEST};
    assert body - {DIGEST} == body;
  }

  lemma ReplayAgrees(host: Host, o: Outcome, p: Outcome, run: Run)
    requires HostOk(host) && OutcomeOk(host, o) && OutcomeOk(host, p) && SameButTime(o, p) && RunOk(host, run)
    ensures SameText(host, Semantic(BuildEnvelope(host, o, run)), Semantic(BuildEnvelope(host, p, REPLAY)))
  {
    hide WellFormed, IsJson, BuildEnvelope, Semantic, AllJson, OutcomeOk, Ascii;
    SemanticAgrees(host, o, p, run, REPLAY);
    ReplayOk(host);
    EnvelopeIsJson(host, o, run);
    SemanticIsJson(host, BuildEnvelope(host, o, run));
    AllIsJson(host, Semantic(BuildEnvelope(host, o, run)));
  }

  lemma SourceRecordValue(host: Host, o: Outcome)
    ensures SourceRecord(host, o).ObjValue? <==> o.sourceDigest != []
    ensures SourceRecord(host, o).ObjValue? ==> FieldIs(SourceRecord(host, o).members, VALUE, StrValue(o.sourceDigest))
  {
    hide Ascii;
    DigestKeysDiffer();
  }

  /** A verified artifact says what a fresh validation says, in every field but the
      metadata of the run, its digest, and the time in the evidence. */
  lemma VerifiedAgreesWithReplay(host: Host, file: Text, replayed: Outcome, k: Text)
    requires HostOk(host) && OutcomeOk(host, replayed) && Verified(host, file, replayed)
    requires k !in RUN_KEYS + {DIGEST, EVIDENCE}
    ensures var artifact, expected := ParseArtifact(host.python, file).value, BuildEnvelope(host, replayed, REPLAY);
            && (k in artifact <==> k in expected)
            && (k in expected ==> artifact[k] == expected[k])
            && EVIDENCE in expected
            && (ObjectAt(expected, EVIDENCE) ==>
                  ObjectAt(artifact, EVIDENCE)
                  && artifact[EVIDENCE].members[RECORDED_AT := RUN_METADATA]
                     == expected[EVIDENCE].members[RECORDED_AT := RUN_METADATA])
            && (!ObjectAt(expected, EVIDENCE) ==> FieldIs(artifact, EVIDENCE, expected[EVIDENCE]))
  {
    hide WellFormed, IsJson, BuildEnvelope, ArtifactDigest, Ascii, ParseArtifact, FieldIs;
    var artifact, expected := ParseArtifact(host.python, file).value, BuildEnvelope(host, replayed, REPLAY);
    CanonicalTextInjective(host.python, ObjValue(Semantic(artifact)), ObjValue(Semantic(expected)));
    assert Semantic(artifact) == Semantic(expected);
    NamedKeysDiffer();
    SemanticKeeps(artifact, k);
    SemanticKeeps(expected, k);
    EvidenceIsThere(host, replayed);
    if ObjectAt(expected, EVIDENCE) {
      EvidenceAgrees(host, artifact, replayed);
    } else {
      NoEvidenceAgrees(host, artifact, replayed);
    }
  }

  lemma SemanticKeeps(m: map<Text, Value>, k: Text)
    requires k !in RUN_KEYS + {DIGEST, EVIDENCE}
    ensures (k in Semantic(m) <==> k in m) && (k in m ==> Semantic(m)[k] == m[k])
  {
    hide Ascii;
  }

  lemma EvidenceAgrees(host: Host, artifact: map<Text, Value>, replayed: Outcome)
    requires OutcomeOk(host, replayed) && ObjectAt(BuildEnvelope(host, replayed, REPLAY), EVIDENCE)
    requires Semantic(artifact) == Semantic(BuildEnvelope(host, replayed, REPLAY))
    ensures ObjectAt(artifact, EVIDENCE)
    ensures artifact[EVIDENCE].members[RECORDED_AT := RUN_METADATA]
         == BuildEnvelope(host, replayed, REPLAY)[EVIDENCE].members[RECORDED_AT := RUN_METADATA]
  {
    hide Ascii, WellFormed, IsJson, ArtifactDigest, AllJson, SourceRecord;
    NamedKeysDiffer();
    SemanticOfEnvelope(host, replayed, REPLAY);
    var expected := BuildEnvelope(host, replayed, REPLAY);
    assert expected[EVIDENCE] == EvidenceOf(replayed);
    var s := Semantic(artifact);
    assert s[EVIDENCE] == ObjValue(replayed.evidence.value[RECORDED_AT := RUN_METADATA]);
    assert RECORDED_AT in s[EVIDENCE].members && s[EVIDENCE].members[RECORDED_AT] == RUN_METADATA;
  }

  lemma EvidenceIsThere(host: Host, o: Outcome)
    requires OutcomeOk(host, o)
    ensures EVIDENCE in BuildEnvelope(host, o, REPLAY) && BuildEnvelope(host, o, REPLAY)[EVIDENCE] == EvidenceOf(o)
  {
    hide Ascii, WellFormed, ArtifactDigest, AllJson, SourceRecord;
    NamedKeysDiffer();
  }

  lemma NoEvidenceAgrees(host: Host, artifact: map<Text, Value>, replayed: Outcome)
    requires OutcomeOk(host, replayed) && !ObjectAt(BuildEnvelope(host, replayed, REPLAY), EVIDENCE)
    requires Semantic(artifact) == Semantic(BuildEnvelope(host, replayed, REPLAY))
    ensures FieldIs(artifact, EVIDENCE, NullValue) && EvidenceOf(replayed) == NullValue
  {
    hide Ascii, WellFormed, ArtifactDigest, AllJson, SourceRecord, BuildEnvelope;
    NamedKeysDiffer();
    EvidenceIsThere(host, replayed);
    SemanticOfEnvelope(host, replayed, REPLAY);
    assert FieldIs(Semantic(artifact), EVIDENCE, NullValue);
  }
}
