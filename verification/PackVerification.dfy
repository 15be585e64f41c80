/** Checking selections, manifests and previews: whatever the producers build passes. */
module PackVerification {
  import opened Wrappers
  import opened Utf8Order
  import opened PathOrder
  import opened CandidatePaths
  import opened PackSelection
  import opened SelectionGuarantees
  import opened ReadPlans

  // ---------- evidence checks ----------

  /** The refusal of a list of paths that is not in order, or holds one path twice. */
  function OrderError(ps: seq<Text>): Option<PackError> {
    if exists i :: 0 < i < |ps| && Below(ps[i], ps[i - 1]) then Some(InvalidInput)
    else if exists i :: 0 < i < |ps| && ps[i - 1] == ps[i] then Some(DuplicatePath)
    else None
  }

  method CheckOrder(ps: seq<Text>) returns (refusal: Option<PackError>)
    requires AllWellFormed(ps)
    ensures refusal == OrderError(ps)
    ensures refusal.None? <==> StrictlyAscending(ps)
  {
    hide Below, WellFormed;
    OrderErrorExactly(ps);
    var index := 1;
    while index < |ps|
      invariant 1 <= index
      invariant forall i :: 0 < i < index && i < |ps| ==> !Below(ps[i], ps[i - 1])
    {
      if Below(ps[index], ps[index - 1]) {
        return Some(InvalidInput);
      }
      index := index + 1;
    }
    index := 1;
    while index < |ps|
      invariant 1 <= index
      invariant forall i :: 0 < i < index && i < |ps| ==> ps[i - 1] != ps[i]
    {
      if ps[index - 1] == ps[index] {
        return Some(DuplicatePath);
      }
      index := index + 1;
    }
    return None;
  }

  /** Comparing neighbours is enough: they are in order and differ exactly when the whole
      list is in strict order. */
  lemma OrderErrorExactly(ps: seq<Text>)
    requires AllWellFormed(ps)
    ensures OrderError(ps).None? <==> StrictlyAscending(ps)
  {
    hide Below, WellFormed;
    if OrderError(ps).None? {
      forall i | 0 < i < |ps| ensures Below(ps[i - 1], ps[i]) {
        assert ps[i - 1] in ps && ps[i] in ps;
        BelowTotal(ps[i - 1], ps[i]);
      }
      NeighboursAscend(ps);
    } else if StrictlyAscending(ps) {
      var i :| 0 < i < |ps| && (Below(ps[i], ps[i - 1]) || ps[i - 1] == ps[i]);
      assert Below(ps[i - 1], ps[i]);
      BelowOneWay(ps[i - 1], ps[i]);
    }
  }

  lemma {:induction false} NeighboursAscend(ps: seq<Text>)
    requires forall i :: 0 < i < |ps| ==> Below(ps[i - 1], ps[i])
    ensures StrictlyAscending(ps)
  {
    hide Below;
    if |ps| > 1 {
      var n := |ps| - 1;
      var front := ps[..n];
      NeighboursAscend(front);
      assert Below(ps[n - 1], ps[n]);
      forall i | 0 <= i < n ensures Below(ps[i], ps[n]) {
        if i < n - 1 {
          assert Below(front[i], front[n - 1]);
          BelowTransitive(ps[i], ps[n - 1], ps[n]);
        }
      }
      forall i, j | 0 <= i < j < |ps| ensures Below(ps[i], ps[j]) {
        if j < n { assert Below(front[i], front[j]); }
      }
    }
  }

  predicate WithinBounds(files: seq<FileEntry>) {
    && |files| <= MAX_FILES
    && (forall f <- files :: f.byteCount <= MAX_FILE_BYTES)
    && ByteSum(files) <= MAX_TOTAL_BYTES
  }

  lemma {:induction false} ByteSumGrows(files: seq<FileEntry>, n: nat)
    requires n <= |files| && forall f <- files :: f.byteCount >= 0
    ensures ByteSum(files[..n]) <= ByteSum(files)
  {
    if n < |files| {
      var front := files[..|files| - 1];
      assert front[..n] == files[..n];
      ByteSumGrows(front, n);
      assert files[|files| - 1] in files;
    } else {
      assert files[..n] == files;
    }
  }

  method CheckBounds(files: seq<FileEntry>) returns (refusal: Option<PackError>)
    requires forall f <- files :: f.byteCount >= 0
    ensures refusal == if WithinBounds(files) then None else Some(BoundsExceeded)
  {
    if |files| > MAX_FILES {
      return Some(BoundsExceeded);
    }
    var total := 0;
    for i := 0 to |files|
      invariant forall f <- files[..i] :: f.byteCount <= MAX_FILE_BYTES
      invariant total == ByteSum(files[..i]) <= MAX_TOTAL_BYTES
    {
      if files[i].byteCount > MAX_FILE_BYTES {
        return Some(BoundsExceeded);
      }
      assert files[..i + 1][..i] == files[..i];
      total := total + files[i].byteCount;
      if total > MAX_TOTAL_BYTES {
        ByteSumGrows(files, i + 1);
        return Some(BoundsExceeded);
      }
    }
    assert files[..|files|] == files;
    return None;
  }

  // ---------- checking a selection ----------

  /** The checks shared by selections and manifests. */
  function EvidenceError(env: Env, included: seq<FileEntry>, exclusions: seq<Exclusion>): Option<PackError> {
    var fs, xs := Paths(included, FilePath), Paths(exclusions, ExclusionPath);
    if !AllValid(env, fs) then Some(InvalidPath)
    else if exists f <- included :: f.byteCount < 0 then Some(InvalidInput)
    else if OrderError(fs).Some? then OrderError(fs)
    else if !AllValid(env, xs) then Some(InvalidPath)
    else if OrderError(xs).Some? then OrderError(xs)
    else if exists p <- xs :: p in fs then Some(PathOverlap)
    else None
  }

  function VerifySelection(env: Env, s: SelectionResult): Option<PackError> {
    var paths := Paths(s.included, FilePath) + Paths(s.exclusions, ExclusionPath);
    if s.version != RULES_VERSION then Some(UnsupportedRules)
    else if EvidenceError(env, s.included, s.exclusions).Some? then EvidenceError(env, s.included, s.exclusions)
    else if Collision(env.host, paths).Some? then Collision(env.host, paths)
    else if !WithinBounds(s.included) then Some(BoundsExceeded)
    else if s.totals != Totals(|s.included| + |s.exclusions|, |s.included|, |s.exclusions|, ByteSum(s.included))
            || s.totals.candidates > MAX_CANDIDATES then Some(InvalidInput)
    else match PathsDigest(env.host, paths)
      case Err(error) => Some(error)
      case Ok(digest) =>
        if s.pathsDigest != digest then Some(IdentityMismatch)
        else if s.identity != env.identity(s.purpose, s.version, s.included, s.exclusions) then Some(IdentityMismatch)
        else None
  }

  /** A sound selection of planned entries holds valid, disjoint evidence. */
  lemma SoundEvidence(env: Env, entries: seq<PlanEntry>, s: SelectionResult)
    requires Sound(entries, s) && AllValid(env, Paths(entries, EntryPath)) && Distinct(Paths(entries, EntryPath))
    ensures EvidenceError(env, s.included, s.exclusions) == None
  {
    hide ValidPath, WellFormed, Below, StrictlyAscending, OrderError;
    var fs, xs, ps := Paths(s.included, FilePath), Paths(s.exclusions, ExclusionPath), Paths(entries, EntryPath);
    forall p | p in fs || p in xs ensures ValidPath(env.host, p) {
      assert p in multiset(fs) + multiset(xs);
      assert p in multiset(ps);
    }
    ValidIsWellFormed(env, fs);
    ValidIsWellFormed(env, xs);
    OrderErrorExactly(fs);
    OrderErrorExactly(xs);
    forall p | p in xs ensures p !in fs { NotInBoth(ps, fs, xs, p); }
  }

  /** A completed plan yields a selection that shares out the plan's entries within the
      limits, each with exactly the outcome the rules give it. */
  lemma CompletedSelection(env: Env, plan: Plan, readings: seq<Read>)
    requires CompleteFromPlan(env, plan, readings).Ok?
    ensures var s := CompleteFromPlan(env, plan, readings).value;
            && Planned(env, plan.entries) && Explained(plan.entries)
            && s == ResultOf(env, plan.purpose, plan.entries, Sources(plan.entries, ReadMap(readings)),
                             plan.pathsDigest)
            && Sound(plan.entries, s)
  {
    hide Sources, ReadMap, ResultOf, Filter, Sound, Planned, WellFormed, ValidPath, ClassifyBeforeRead, PathsDigest,
         EntryError, Collision, SortBy;
    NormalizedPlansAreMade(env, plan);
    SkeletonFacts(env, EntryMetas(plan.entries));
    PlannedIsExplained(env, plan.entries);
    SelectionIsSound(env, plan.purpose, plan.entries, ReadMap(readings), plan.pathsDigest);
  }

  lemma EveryCandidateOutcome(env: Env, plan: Plan, readings: seq<Read>, i: nat, r: Reason)
    requires CompleteFromPlan(env, plan, readings).Ok? && i < |plan.entries|
    ensures var s := CompleteFromPlan(env, plan, readings).value;
            var p, verdict := EntryPath(plan.entries[i]), Verdict(env, s.included, ReadMap(readings), plan.entries[i]);
            && (Exclusion(p, r) in s.exclusions <==> verdict == Some(r))
            && ((exists f <- s.included :: f.path == p) <==> verdict == None)
  {
    hide Sources, ReadMap, ResultOf, Verdict, Planned, Sound, CompleteFromPlan;
    CompletedSelection(env, plan, readings);
    EveryOutcome(env, plan.purpose, plan.entries, ReadMap(readings), plan.pathsDigest, i, r);
  }

  /** Every selection made from a plan passes the check of selections. */
  lemma CompletedVerifies(env: Env, plan: Plan, readings: seq<Read>)
    requires CompleteFromPlan(env, plan, readings).Ok?
    ensures VerifySelection(env, CompleteFromPlan(env, plan, readings).value) == None
  {
    hide *;
    var s := CompleteFromPlan(env, plan, readings).value;
    CompletedSelection(env, plan, readings);
    PlanOfCompletion(env, plan, readings);
    var paths := Paths(plan.entries, EntryPath);
    var parts := Paths(s.included, FilePath) + Paths(s.exclusions, ExclusionPath);
    PairwiseIsDistinct(env.host, paths);
    SoundEvidence(env, plan.entries, s);
    PartsPermute(plan.entries, s);
    PairwiseDistinctPermutes(env.host, paths, parts);
    CollisionIsPairwise(env.host, parts);
    PathsDigestPermutes(env.host, paths, parts);
    SoundVerifies(env, plan.entries, s);
    IdentityOfResult(env, plan.purpose, plan.entries, Sources(plan.entries, ReadMap(readings)), plan.pathsDigest);
  }

  lemma PartsPermute(entries: seq<PlanEntry>, s: SelectionResult)
    requires Sound(entries, s)
    ensures multiset(Paths(entries, EntryPath))
        == multiset(Paths(s.included, FilePath) + Paths(s.exclusions, ExclusionPath))
  {
    hide StrictlyAscending;
  }

  lemma PlanOfCompletion(env: Env, plan: Plan, readings: seq<Read>)
    requires CompleteFromPlan(env, plan, readings).Ok?
    ensures var paths := Paths(plan.entries, EntryPath);
            && AllValid(env, paths) && PairwiseDistinct(env.host, paths) && |plan.entries| <= MAX_CANDIDATES
            && PathsDigest(env.host, paths) == Ok(plan.pathsDigest)
  {
    hide Sources, ReadMap, ResultOf, Filter, WellFormed, ValidPath, PathsDigest, EntryError, Collision, SortBy,
         PairwiseDistinct, AllValid;
    NormalizedIsExplained(env, plan.entries);
    CollisionIsPairwise(env.host, Paths(plan.entries, EntryPath));
  }

  lemma IdentityOfResult(env: Env, purpose: Purpose, entries: seq<PlanEntry>, sources: seq<Source>, pathsDigest: Digest)
    requires Explained(entries)
    ensures var s := ResultOf(env, purpose, entries, sources, pathsDigest);
            && s.version == RULES_VERSION && s.pathsDigest == pathsDigest
            && s.identity == env.identity(s.purpose, s.version, s.included, s.exclusions)
  {}

  lemma SoundVerifies(env: Env, entries: seq<PlanEntry>, s: SelectionResult)
    requires Sound(entries, s) && |entries| <= MAX_CANDIDATES
    requires EvidenceError(env, s.included, s.exclusions) == None
    requires Collision(env.host, Paths(s.included, FilePath) + Paths(s.exclusions, ExclusionPath)) == None
    ensures var error := VerifySelection(env, s);
            var paths := Paths(s.included, FilePath) + Paths(s.exclusions, ExclusionPath);
            error == None <==> && s.version == RULES_VERSION
                               && PathsDigest(env.host, paths) == Ok(s.pathsDigest)
                               && s.identity == env.identity(s.purpose, s.version, s.included, s.exclusions)
  {
    hide EvidenceError, Collision, PathsDigest, Bag, StrictlyAscending;
  }

  /** Every selection made from candidates passes the check of selections. */
  lemma SelectedVerifies(env: Env, purpose: Purpose, candidates: seq<Candidate>)
    requires SelectSources(env, purpose, candidates).Ok?
    ensures VerifySelection(env, SelectSources(env, purpose, candidates).value) == None
  {
    hide *;
    var metas := CandidateMetas(candidates);
    RoutesAgree(env, purpose, candidates, metas,
                if PlanCandidateReads(env, purpose, metas).Ok?
                then CandidateReads(PlanCandidateReads(env, purpose, metas).value.entries, candidates) else []);
    var plan := PlanCandidateReads(env, purpose, metas).value;
    CompletedVerifies(env, plan, CandidateReads(plan.entries, candidates));
  }

  // ---------- manifests and previews ----------

  /** The project label and time of a manifest, as the caller gives them. */
  datatype Stamp = Stamp(project: Text, generatedAt: Text)

  datatype Manifest = Manifest(identity: Identity, purpose: Purpose, version: string, stamp: Stamp,
                               sources: seq<FileEntry>, exclusions: seq<Exclusion>, digest: Digest)

  /** How manifests are digested and stamps are checked. */
  datatype Press = Press(env: Env, stampOk: Stamp -> bool,
                         digest: (Identity, Purpose, string, Stamp, seq<FileEntry>, seq<Exclusion>) -> Digest)

  function CreateManifest(press: Press, purpose: Purpose, stamp: Stamp, included: seq<FileEntry>,
                          excluded: seq<Exclusion>)
    : Result<Manifest, PackError>
  {
    var sources, exclusions := SortBy(included, FilePath), SortBy(excluded, ExclusionPath);
    if !press.stampOk(stamp) then Err(InvalidInput)
    else if EvidenceError(press.env, sources, exclusions).Some?
      then Err(EvidenceError(press.env, sources, exclusions).value)
    else if !WithinBounds(sources) then Err(BoundsExceeded)
    else
      var identity := press.env.identity(purpose, RULES_VERSION, sources, exclusions);
      Ok(Manifest(identity, purpose, RULES_VERSION, stamp, sources, exclusions,
                  press.digest(identity, purpose, RULES_VERSION, stamp, sources, exclusions)))
  }

  function CreateManifestFromSelection(press: Press, s: SelectionResult, stamp: Stamp): Result<Manifest, PackError> {
    if VerifySelection(press.env, s).Some? then Err(VerifySelection(press.env, s).value)
    else match CreateManifest(press, s.purpose, stamp, s.included, s.exclusions)
      case Err(error) => Err(error)
      case Ok(manifest) => if manifest.identity != s.identity then Err(IdentityMismatch) else Ok(manifest)
  }

  function VerifyManifest(press: Press, m: Manifest): Option<PackError> {
    if !press.stampOk(m.stamp) then Some(InvalidInput)
    else if EvidenceError(press.env, m.sources, m.exclusions).Some?
      then EvidenceError(press.env, m.sources, m.exclusions)
    else if !WithinBounds(m.sources) then Some(BoundsExceeded)
    else if m.identity != press.env.identity(m.purpose, m.version, m.sources, m.exclusions) then Some(IdentityMismatch)
    else if m.digest != press.digest(m.identity, m.purpose, m.version, m.stamp, m.sources, m.exclusions)
      then Some(IdentityMismatch)
    else None
  }

  lemma EvidenceIsSorted(env: Env, included: seq<FileEntry>, exclusions: seq<Exclusion>)
    requires EvidenceError(env, included, exclusions).None?
    ensures SortBy(included, FilePath) == included && SortBy(exclusions, ExclusionPath) == exclusions
  {
    hide SortBy, ValidPath, WellFormed, Below, OrderError, StrictlyAscending;
    ValidIsWellFormed(env, Paths(included, FilePath));
    ValidIsWellFormed(env, Paths(exclusions, ExclusionPath));
    OrderErrorExactly(Paths(included, FilePath));
    OrderErrorExactly(Paths(exclusions, ExclusionPath));
    SortOfSorted(included, FilePath);
    SortOfSorted(exclusions, ExclusionPath);
  }

  /** Every selection that passes its check, stamped well, makes a manifest of exactly its
      evidence and identity, and that manifest passes its own check. */
  lemma ManifestOfSelection(press: Press, s: SelectionResult, stamp: Stamp)
    requires VerifySelection(press.env, s) == None && press.stampOk(stamp)
    ensures CreateManifestFromSelection(press, s, stamp).Ok?
    ensures var m := CreateManifestFromSelection(press, s, stamp).value;
            && VerifyManifest(press, m) == None
            && m.identity == s.identity && m.purpose == s.purpose && m.version == s.version && m.stamp == stamp
            && m.sources == s.included && m.exclusions == s.exclusions
  {
    hide EvidenceError, Collision, PathsDigest, SortBy;
    EvidenceIsSorted(press.env, s.included, s.exclusions);
  }

  /** A preview: the selection, its manifest, and the project it belongs to. */
  datatype Preview = Preview(bindingId: Text, generation: int, pathsDigest: Digest, selection: SelectionResult,
                             manifest: Manifest, createdAt: Text)

  /** The generation of a project: a positive safe integer. */
  predicate GenerationOk(generation: int) { 1 <= generation <= 9007199254740991 }

  predicate PreviewIntact(press: Press, p: Preview) {
    && p.bindingId != [] && GenerationOk(p.generation)
    && VerifySelection(press.env, p.selection) == None
    && VerifyManifest(press, p.manifest) == None
    && p.pathsDigest == p.selection.pathsDigest
    && p.manifest.identity == p.selection.identity
    && p.manifest.purpose == p.selection.purpose
    && p.manifest.version == p.selection.version
    && p.manifest.stamp.generatedAt == p.createdAt
  }

  /** The preview of files picked by the user: plan, read, complete, and stamp. */
  function CreatePreview(press: Press, bindingId: Text, generation: int, purpose: Purpose, metas: seq<Metadata>,
                         readings: seq<Read>, stamp: Stamp): Result<Preview, PackError>
  {
    if bindingId == [] || !GenerationOk(generation) || metas == [] then Err(InvalidInput)
    else match PlanCandidateReads(press.env, purpose, metas)
      case Err(error) => Err(error)
      case Ok(plan) =>
        match CompleteFromPlan(press.env, plan, readings)
        case Err(error) => Err(error)
        case Ok(selection) =>
          if selection.pathsDigest != plan.pathsDigest then Err(IdentityMismatch)
          else match CreateManifestFromSelection(press, selection, stamp)
            case Err(error) => Err(error)
            case Ok(manifest) =>
              Ok(Preview(bindingId, generation, selection.pathsDigest, selection, manifest, stamp.generatedAt))
  }

  /** Every preview made passes the integrity check it must pass before it is confirmed. */
  lemma PreviewsAreIntact(press: Press, bindingId: Text, generation: int, purpose: Purpose, metas: seq<Metadata>,
                          readings: seq<Read>, stamp: Stamp)
    requires CreatePreview(press, bindingId, generation, purpose, metas, readings, stamp).Ok?
    ensures PreviewIntact(press, CreatePreview(press, bindingId, generation, purpose, metas, readings, stamp).value)
  {
    hide PlanCandidateReads, CompleteFromPlan, VerifySelection, CreateManifest, VerifyManifest;
    var plan := PlanCandidateReads(press.env, purpose, metas).value;
    var selection := CompleteFromPlan(press.env, plan, readings).value;
    CompletedVerifies(press.env, plan, readings);
    StampWasOk(press, selection, stamp);
    ManifestOfSelection(press, selection, stamp);
  }

  lemma StampWasOk(press: Press, s: SelectionResult, stamp: Stamp)
    requires CreateManifestFromSelection(press, s, stamp).Ok?
    ensures press.stampOk(stamp)
  {
    hide VerifySelection, EvidenceError, SortBy;
  }
}
