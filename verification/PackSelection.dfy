/** Selecting the sources of a coding pack: the read plan, and the bounded greedy
    completion of a selection from the bytes that were read. */
module PackSelection {
  import opened Wrappers
  import opened Utf8Order
  import opened PathOrder
  import opened CandidatePaths

  const MAX_CANDIDATES := 5000
  const MAX_ELIGIBLE_BYTES := 52428800
  const MAX_FILES := 500
  const MAX_FILE_BYTES := 524288
  const MAX_TOTAL_BYTES := 10485760
  const RULES_VERSION := "kerniq-coding-pack-selection-v1"

  type Bytes = seq<int>

  datatype Purpose = RepositoryOrientation | TaskContext | ReviewHandoff

  datatype Origin = ExplicitSelection | PurposeRule | ProjectDefault

  datatype Reason = HardPrivatePath | VendorDirectory | GeneratedDirectory | CredentialLikeName | ExplicitExclusion
                  | ProjectIgnore | BinaryLikeExtension | FileSizeLimit | InvalidUtf8 | FileCountLimit
                  | AggregateSizeLimit

  datatype Metadata = Metadata(path: Text, origin: Origin, ignored: bool, excluded: bool)

  datatype Candidate = Candidate(meta: Metadata, bytes: Bytes)

  datatype Read = Read(path: Text, bytes: Bytes)

  datatype Disposition = ReadRequired | Excluded

  datatype PlanEntry = PlanEntry(meta: Metadata, disposition: Disposition, reason: Option<Reason>)

  datatype Plan = Plan(purpose: Purpose, version: string, pathsDigest: Digest, entries: seq<PlanEntry>,
                       readCount: int, excludedCount: int, digest: Digest)

  /** A file that was read for a plan entry. */
  datatype Source = Source(entry: PlanEntry, bytes: Bytes)

  datatype FileEntry = FileEntry(path: Text, digest: Digest, byteCount: int, origin: Origin)

  datatype Exclusion = Exclusion(path: Text, reason: Reason)

  datatype Totals = Totals(candidates: int, included: int, excluded: int, bytes: int)

  /** The identity of a pack: a fingerprint of its evidence; its id is made from it. */
  datatype Identity = Identity(fingerprint: Digest, packId: string)

  datatype SelectionResult = SelectionResult(purpose: Purpose, version: string, pathsDigest: Digest, identity: Identity,
                                             included: seq<FileEntry>, exclusions: seq<Exclusion>, totals: Totals)

  /** What the lists of private, vendor, generated and credential names say of a path. */
  datatype Traits = Traits(isPrivate: bool, vendor: bool, generated: bool, credential: bool, binary: bool)

  /** The host of the path checks, the name lists, the UTF-8 decoder, and the digests of
      plans and of source evidence. */
  datatype Env = Env(host: Host, traits: Text -> Traits, utf8: Bytes -> bool,
                     planDigest: (Purpose, string, Digest, seq<PlanEntry>) -> Digest,
                     identity: (Purpose, string, seq<FileEntry>, seq<Exclusion>) -> Identity)

  function MetaPath(m: Metadata): Text { m.path }

  function EntryPath(e: PlanEntry): Text { e.meta.path }

  function ReadPath(r: Read): Text { r.path }

  function SourcePath(s: Source): Text { s.entry.meta.path }

  function FilePath(f: FileEntry): Text { f.path }

  function ExclusionPath(x: Exclusion): Text { x.path }

  predicate Required(e: PlanEntry) { e.disposition.ReadRequired? }

  predicate NotRequired(e: PlanEntry) { !e.disposition.ReadRequired? }

  // ---------- the read plan ----------

  function ClassifyBeforeRead(env: Env, m: Metadata): Option<Reason> {
    var traits := env.traits(m.path);
    if traits.isPrivate then Some(HardPrivatePath)
    else if traits.vendor then Some(VendorDirectory)
    else if traits.generated then Some(GeneratedDirectory)
    else if traits.credential then Some(CredentialLikeName)
    else if m.excluded then Some(ExplicitExclusion)
    else if m.ignored then Some(ProjectIgnore)
    else if traits.binary then Some(BinaryLikeExtension)
    else None
  }

  function PlanEntryOf(env: Env, m: Metadata): PlanEntry {
    var reason := ClassifyBeforeRead(env, m);
    PlanEntry(m, if reason.None? then ReadRequired else Excluded, reason)
  }

  function PlanEntries(env: Env, metas: seq<Metadata>): (entries: seq<PlanEntry>)
    ensures |entries| == |metas| && forall i :: 0 <= i < |metas| ==> entries[i] == PlanEntryOf(env, metas[i])
  {
    seq(|metas|, i requires 0 <= i < |metas| => PlanEntryOf(env, metas[i]))
  }

  function BuildPlanSkeleton(env: Env, metas: seq<Metadata>): Result<seq<PlanEntry>, PackError> {
    var sorted := SortBy(metas, MetaPath);
    match Collision(env.host, Paths(sorted, MetaPath))
    case Some(error) => Err(error)
    case None => Ok(PlanEntries(env, sorted))
  }

  function FinalizeReadPlan(env: Env, purpose: Purpose, entries: seq<PlanEntry>): Result<Plan, PackError> {
    match PathsDigest(env.host, Paths(entries, EntryPath))
    case Err(error) => Err(error)
    case Ok(pathsDigest) =>
      Ok(Plan(purpose, RULES_VERSION, pathsDigest, entries, |Filter(entries, Required)|, |Filter(entries, NotRequired)|,
              env.planDigest(purpose, RULES_VERSION, pathsDigest, entries)))
  }

  predicate AllValid(env: Env, ps: seq<Text>) { forall p <- ps :: ValidPath(env.host, p) }

  function PlanCandidateReads(env: Env, purpose: Purpose, metas: seq<Metadata>): Result<Plan, PackError> {
    if |metas| > MAX_CANDIDATES then Err(BoundsExceeded)
    else if !AllValid(env, Paths(metas, MetaPath)) then Err(InvalidPath)
    else match BuildPlanSkeleton(env, metas)
      case Err(error) => Err(error)
      case Ok(entries) => FinalizeReadPlan(env, purpose, entries)
  }

  /** The first entry a received plan may not hold, and why. */
  function EntryError(env: Env, entries: seq<PlanEntry>): Option<PackError> {
    if entries == [] then None
    else if !ValidPath(env.host, entries[0].meta.path) then Some(InvalidPath)
    else if entries[0] != PlanEntryOf(env, entries[0].meta) then Some(IdentityMismatch)
    else EntryError(env, entries[1..])
  }

  /** The check of a received plan. */
  function NormalizeReadPlan(env: Env, plan: Plan): Result<Plan, PackError> {
    var paths := Paths(plan.entries, EntryPath);
    if plan.version != RULES_VERSION then Err(UnsupportedRules)
    else if |plan.entries| > MAX_CANDIDATES then Err(BoundsExceeded)
    else if EntryError(env, plan.entries).Some? then Err(EntryError(env, plan.entries).value)
    else if paths != Paths(SortBy(plan.entries, EntryPath), EntryPath) then Err(InvalidInput)
    else if Collision(env.host, paths).Some? then Err(Collision(env.host, paths).value)
    else if plan.readCount < 0 || plan.excludedCount < 0
            || plan.readCount != |Filter(plan.entries, Required)|
            || plan.excludedCount != |Filter(plan.entries, NotRequired)| then Err(InvalidInput)
    else match PathsDigest(env.host, paths)
      case Err(error) => Err(error)
      case Ok(digest) =>
        if plan.pathsDigest != digest then Err(IdentityMismatch)
        else if plan.digest != env.planDigest(plan.purpose, plan.version, plan.pathsDigest, plan.entries)
          then Err(IdentityMismatch)
        else Ok(plan)
  }

  // ---------- completing a selection ----------

  function ReadMap(readings: seq<Read>): (m: map<Text, Bytes>)
    ensures forall p :: p in m <==> p in Paths(readings, ReadPath)
    ensures forall p <- m :: Read(p, m[p]) in readings
  {
    if readings == [] then map[]
    else
      var front, last := readings[..|readings| - 1], readings[|readings| - 1];
      assert readings == front + [last];
      assert Paths(readings, ReadPath) == Paths(front, ReadPath) + [last.path];
      ReadMap(front)[last.path := last.bytes]
  }

  /** The readings are exactly those of the entries that need one. */
  predicate ReadsMatch(entries: seq<PlanEntry>, readings: seq<Read>) {
    var expected, got := Paths(Filter(entries, Required), EntryPath), Paths(readings, ReadPath);
    && |readings| == |expected|
    && (forall p <- got :: p in expected)
    && (forall p <- expected :: p in got)
  }

  /** The files read, in the order of the plan. */
  function Sources(entries: seq<PlanEntry>, m: map<Text, Bytes>): (sources: seq<Source>)
    ensures forall s <- sources :: s.entry in entries && Required(s.entry)
  {
    if entries == [] then []
    else
      var front, last := entries[..|entries| - 1], entries[|entries| - 1];
      assert entries == front + [last];
      Sources(front, m)
      + if Required(last) then [Source(last, if EntryPath(last) in m then m[EntryPath(last)] else [])] else []
  }

  predicate Small(s: Source) { |s.bytes| <= MAX_FILE_BYTES }

  function Decodes(env: Env): Source -> bool { (s: Source) => env.utf8(s.bytes) }

  /** Files that are small enough and valid UTF-8. */
  function ValidSources(env: Env, sources: seq<Source>): seq<Source> { Filter(Filter(sources, Small), Decodes(env)) }

  function Sum(sources: seq<Source>): nat {
    if sources == [] then 0 else Sum(sources[..|sources| - 1]) + |sources[|sources| - 1].bytes|
  }

  /** Exclusions made before the selection limits apply. */
  function ReadExclusions(env: Env, sources: seq<Source>): seq<Exclusion> {
    if sources == [] then []
    else
      var front, last := sources[..|sources| - 1], sources[|sources| - 1];
      ReadExclusions(env, front)
      + if !Small(last) then [Exclusion(SourcePath(last), FileSizeLimit)]
        else if !env.utf8(last.bytes) then [Exclusion(SourcePath(last), InvalidUtf8)]
        else []
  }

  predicate Fits(accepted: seq<Source>, s: Source) {
    |accepted| < MAX_FILES && Sum(accepted) + |s.bytes| <= MAX_TOTAL_BYTES
  }

  /** The files taken greedily within the limits. */
  function Accepted(valid: seq<Source>): (accepted: seq<Source>)
    ensures forall s <- accepted :: s in valid
  {
    if valid == [] then []
    else
      var front, last := valid[..|valid| - 1], valid[|valid| - 1];
      assert valid == front + [last];
      Accepted(front) + if Fits(Accepted(front), last) then [last] else []
  }

  /** The files left out by the limits, and which limit. */
  function LimitExclusions(valid: seq<Source>): seq<Exclusion> {
    if valid == [] then []
    else
      var front, last := valid[..|valid| - 1], valid[|valid| - 1];
      LimitExclusions(front)
      + if Fits(Accepted(front), last) then []
        else [Exclusion(SourcePath(last),
                        if |Accepted(front)| >= MAX_FILES then FileCountLimit else AggregateSizeLimit)]
  }

  /** Exclusions made before reading. */
  function PlanExclusions(entries: seq<PlanEntry>): (xs: seq<Exclusion>)
    requires forall e <- entries :: NotRequired(e) ==> e.reason.Some?
  {
    if entries == [] then []
    else
      var front, last := entries[..|entries| - 1], entries[|entries| - 1];
      assert entries == front + [last];
      PlanExclusions(front) + if NotRequired(last) then [Exclusion(EntryPath(last), last.reason.value)] else []
  }

  function IncludedEntries(env: Env, accepted: seq<Source>): (files: seq<FileEntry>)
    ensures |files| == |accepted|
    ensures forall i :: 0 <= i < |files| ==>
      files[i] == FileEntry(SourcePath(accepted[i]), env.host.hash(accepted[i].bytes), |accepted[i].bytes|,
                            accepted[i].entry.meta.origin)
  {
    seq(|accepted|, i requires 0 <= i < |accepted| =>
      FileEntry(SourcePath(accepted[i]), env.host.hash(accepted[i].bytes), |accepted[i].bytes|,
                accepted[i].entry.meta.origin))
  }

  /** Entries as planning makes them: an excluded one says why. */
  predicate Explained(entries: seq<PlanEntry>) { forall e <- entries :: NotRequired(e) <==> e.reason.Some? }

  function AllExclusions(env: Env, entries: seq<PlanEntry>, sources: seq<Source>): seq<Exclusion>
    requires Explained(entries)
  {
    PlanExclusions(entries) + ReadExclusions(env, sources) + LimitExclusions(ValidSources(env, sources))
  }

  /** The selection made of what was read. */
  function ResultOf(env: Env, purpose: Purpose, entries: seq<PlanEntry>, sources: seq<Source>,
                    pathsDigest: Digest): SelectionResult
    requires Explained(entries)
  {
    var accepted := Accepted(ValidSources(env, sources));
    var included := IncludedEntries(env, accepted);
    var exclusions := SortBy(AllExclusions(env, entries, sources), ExclusionPath);
    SelectionResult(purpose, RULES_VERSION, pathsDigest, env.identity(purpose, RULES_VERSION, included, exclusions),
                    included, exclusions, Totals(|entries|, |included|, |exclusions|, Sum(accepted)))
  }

  function Completed(env: Env, purpose: Purpose, entries: seq<PlanEntry>, readings: seq<Read>, pathsDigest: Digest)
    : Result<SelectionResult, PackError>
    requires Explained(entries)
  {
    if !Distinct(Paths(readings, ReadPath)) then Err(DuplicatePath)
    else if !ReadsMatch(entries, readings) then Err(InvalidInput)
    else
      var sources := Sources(entries, ReadMap(readings));
      if Sum(Filter(sources, Small)) > MAX_ELIGIBLE_BYTES then Err(BoundsExceeded)
      else Ok(ResultOf(env, purpose, entries, sources, pathsDigest))
  }

  /** A map made of readings has one entry per read exactly when no path is read twice. */
  lemma {:induction false} ReadMapSize(readings: seq<Read>)
    ensures |ReadMap(readings)| <= |readings|
    ensures |ReadMap(readings)| == |readings| <==> Distinct(Paths(readings, ReadPath))
  {
    if readings != [] {
      var front, last := readings[..|readings| - 1], readings[|readings| - 1];
      var ps := Paths(front, ReadPath);
      assert Paths(readings, ReadPath) == ps + [last.path];
      ReadMapSize(front);
      MapGrows(ReadMap(front), last.path, last.bytes);
      DistinctSnoc(ps, last.path);
    }
  }

  lemma MapGrows(m: map<Text, Bytes>, p: Text, bytes: Bytes)
    ensures |m[p := bytes]| == |m| + if p in m then 0 else 1
  {
    assert m[p := bytes].Keys == m.Keys + {p};
    assert |m| == |m.Keys| && |m[p := bytes]| == |m[p := bytes].Keys|;
  }

  lemma DistinctSnoc<T>(xs: seq<T>, x: T)
    ensures Distinct(xs + [x]) <==> Distinct(xs) && x !in xs
  {
    var ys := xs + [x];
    if Distinct(ys) {
      assert forall i :: 0 <= i < |xs| ==> ys[i] == xs[i];
      assert ys[|xs|] == x;
    }
  }

  lemma SumSnoc(sources: seq<Source>, s: Source)
    ensures Sum(sources + [s]) == Sum(sources) + |s.bytes|
  {
    assert (sources + [s])[..|sources|] == sources;
  }

  /** Reading one more entry only adds to the eligible bytes. */
  lemma LastAdds(entries: seq<PlanEntry>, m: map<Text, Bytes>)
    requires entries != []
    ensures Sum(Filter(Sources(entries[..|entries| - 1], m), Small)) <= Sum(Filter(Sources(entries, m), Small))
  {
    hide Sum, Filter;
    var front, more := entries[..|entries| - 1], Sources(entries, m);
    if Required(entries[|entries| - 1]) {
      var s := more[|more| - 1];
      FilterSnoc(Sources(front, m), s, Small);
      SumSnoc(Filter(Sources(front, m), Small), s);
      assert Filter(Sources(front, m), Small) + [] == Filter(Sources(front, m), Small);
    } else {
      assert more == Sources(front, m) + [] == Sources(front, m);
    }
  }

  lemma {:induction false} EligibleGrows(entries: seq<PlanEntry>, m: map<Text, Bytes>, n: nat)
    requires n <= |entries|
    ensures Sum(Filter(Sources(entries[..n], m), Small)) <= Sum(Filter(Sources(entries, m), Small))
  {
    hide Sum, Filter, Sources;
    if n < |entries| {
      assert entries[..|entries| - 1][..n] == entries[..n];
      EligibleGrows(entries[..|entries| - 1], m, n);
      LastAdds(entries, m);
    } else {
      assert entries[..n] == entries;
    }
  }

  /** What one more plan entry adds to the files read, the valid files, and the exclusions. */
  lemma NextEntry(env: Env, entries: seq<PlanEntry>, m: map<Text, Bytes>, n: nat)
    requires n < |entries|
    ensures var e, before, after := entries[n], Sources(entries[..n], m), Sources(entries[..n + 1], m);
            var s := Source(e, if EntryPath(e) in m then m[EntryPath(e)] else []);
            && (!Required(e) ==> after == before)
            && (Required(e) && !Small(s) ==>
                  && Filter(after, Small) == Filter(before, Small)
                  && ValidSources(env, after) == ValidSources(env, before)
                  && ReadExclusions(env, after)
                     == ReadExclusions(env, before) + [Exclusion(EntryPath(e), FileSizeLimit)])
            && (Required(e) && Small(s) ==>
                  && Sum(Filter(after, Small)) == Sum(Filter(before, Small)) + |s.bytes|
                  && ValidSources(env, after) == ValidSources(env, before) + (if env.utf8(s.bytes) then [s] else [])
                  && ReadExclusions(env, after) == ReadExclusions(env, before)
                       + if env.utf8(s.bytes) then [] else [Exclusion(EntryPath(e), InvalidUtf8)])
  {
    assert entries[..n + 1][..n] == entries[..n];
    var e, before, after := entries[n], Sources(entries[..n], m), Sources(entries[..n + 1], m);
    if Required(e) {
      var s := after[|after| - 1];
      assert after == before + [s] && after[..|after| - 1] == before;
      FilterSnoc(before, s, Small);
      if Small(s) {
        SumSnoc(Filter(before, Small), s);
        FilterSnoc(Filter(before, Small), s, Decodes(env));
      }
    }
  }

  lemma NextValid(valid: seq<Source>, n: nat)
    requires n < |valid|
    ensures var s, accepted := valid[n], Accepted(valid[..n]);
            && Accepted(valid[..n + 1]) == accepted + (if Fits(accepted, s) then [s] else [])
            && LimitExclusions(valid[..n + 1]) == LimitExclusions(valid[..n])
                 + if Fits(accepted, s) then []
                   else [Exclusion(SourcePath(s),
                                   if |accepted| >= MAX_FILES then FileCountLimit else AggregateSizeLimit)]
  {
    assert valid[..n + 1][..n] == valid[..n];
  }

  method CompleteSelection(env: Env, purpose: Purpose, entries: seq<PlanEntry>, readings: seq<Read>,
                           pathsDigest: Digest)
    returns (result: Result<SelectionResult, PackError>)
    requires Explained(entries)
    ensures result == Completed(env, purpose, entries, readings, pathsDigest)
  {
    hide Sources, ValidSources, ReadExclusions, LimitExclusions, Accepted, Sum, Filter, ReadMap, SortBy;
    var readMap := ReadMap(readings);
    ReadMapSize(readings);
    if |readMap| != |readings| {
      return Err(DuplicatePath);
    }
    if !ReadsMatch(entries, readings) {
      return Err(InvalidInput);
    }
    ghost var sources := Sources(entries, readMap);
    var readExclusions: seq<Exclusion>, valid: seq<Source>, eligibleBytes := [], [], 0;
    EmptyStart(env, entries, readMap);
    for i := 0 to |entries|
      invariant readExclusions == ReadExclusions(env, Sources(entries[..i], readMap))
      invariant valid == ValidSources(env, Sources(entries[..i], readMap))
      invariant eligibleBytes == Sum(Filter(Sources(entries[..i], readMap), Small)) <= MAX_ELIGIBLE_BYTES
    {
      var entry := entries[i];
      NextEntry(env, entries, readMap, i);
      if Required(entry) {
        EntryWasRead(entries, readings, i);
        var bytes := readMap[EntryPath(entry)];
        if |bytes| > MAX_FILE_BYTES {
          readExclusions := readExclusions + [Exclusion(EntryPath(entry), FileSizeLimit)];
        } else {
          eligibleBytes := eligibleBytes + |bytes|;
          if eligibleBytes > MAX_ELIGIBLE_BYTES {
            EligibleGrows(entries, readMap, i + 1);
            return Err(BoundsExceeded);
          }
          if !env.utf8(bytes) {
            readExclusions := readExclusions + [Exclusion(EntryPath(entry), InvalidUtf8)];
          } else {
            valid := valid + [Source(entry, bytes)];
          }
        }
      }
    }
    assert entries[..|entries|] == entries;
    var accepted, limitExclusions, includedBytes := Greedy(valid);
    var exclusions := SortBy(PlanExclusions(entries) + readExclusions + limitExclusions, ExclusionPath);
    var included := IncludedEntries(env, accepted);
    result := Ok(SelectionResult(purpose, RULES_VERSION, pathsDigest,
                                 env.identity(purpose, RULES_VERSION, included, exclusions),
                                 included, exclusions, Totals(|entries|, |included|, |exclusions|, includedBytes)));
  }

  lemma EmptyStart(env: Env, entries: seq<PlanEntry>, m: map<Text, Bytes>)
    ensures Sources(entries[..0], m) == [] && ReadExclusions(env, []) == [] && ValidSources(env, []) == []
    ensures Sum(Filter([], Small)) == 0
  {}

  lemma EntryWasRead(entries: seq<PlanEntry>, readings: seq<Read>, i: nat)
    requires i < |entries| && Required(entries[i]) && ReadsMatch(entries, readings)
    ensures EntryPath(entries[i]) in ReadMap(readings)
  {
    var required := Filter(entries, Required);
    assert entries[i] in required;
    var k :| 0 <= k < |required| && required[k] == entries[i];
    assert Paths(required, EntryPath)[k] == EntryPath(entries[i]);
  }

  /** The second pass: take files while both limits allow it. */
  method Greedy(valid: seq<Source>) returns (accepted: seq<Source>, exclusions: seq<Exclusion>, bytes: nat)
    ensures accepted == Accepted(valid) && exclusions == LimitExclusions(valid) && bytes == Sum(accepted)
  {
    accepted, exclusions, bytes := [], [], 0;
    for i := 0 to |valid|
      invariant accepted == Accepted(valid[..i]) && exclusions == LimitExclusions(valid[..i]) && bytes == Sum(accepted)
    {
      var candidate := valid[i];
      NextValid(valid, i);
      if |accepted| >= MAX_FILES {
        exclusions := exclusions + [Exclusion(SourcePath(candidate), FileCountLimit)];
      } else if bytes + |candidate.bytes| > MAX_TOTAL_BYTES {
        exclusions := exclusions + [Exclusion(SourcePath(candidate), AggregateSizeLimit)];
      } else {
        SumSnoc(accepted, candidate);
        accepted := accepted + [candidate];
        bytes := bytes + |candidate.bytes|;
      }
    }
    assert valid[..|valid|] == valid;
  }

  // ---------- the two routes ----------

  function CompleteFromPlan(env: Env, plan: Plan, readings: seq<Read>): (result: Result<SelectionResult, PackError>)
  {
    match NormalizeReadPlan(env, plan)
    case Err(error) => Err(error)
    case Ok(normal) =>
      if |readings| > MAX_CANDIDATES then Err(BoundsExceeded)
      else if !AllValid(env, Paths(readings, ReadPath)) then Err(InvalidPath)
      else
        NormalizedIsExplained(env, plan.entries);
        Completed(env, normal.purpose, normal.entries, readings, normal.pathsDigest)
  }

  lemma {:induction false} NormalizedIsExplained(env: Env, entries: seq<PlanEntry>)
    requires EntryError(env, entries).None?
    ensures Explained(entries) && AllValid(env, Paths(entries, EntryPath))
    ensures forall i :: 0 <= i < |entries| ==> entries[i] == PlanEntryOf(env, entries[i].meta)
  {
    hide ValidPath, ClassifyBeforeRead;
    if entries != [] {
      NormalizedIsExplained(env, entries[1..]);
      assert entries == [entries[0]] + entries[1..];
      assert Paths(entries, EntryPath) == [EntryPath(entries[0])] + Paths(entries[1..], EntryPath);
    }
  }

  function CandidateMetas(candidates: seq<Candidate>): (metas: seq<Metadata>)
    ensures |metas| == |candidates| && forall i :: 0 <= i < |metas| ==> metas[i] == candidates[i].meta
  {
    seq(|candidates|, i requires 0 <= i < |candidates| => candidates[i].meta)
  }

  /** The first plan entry with a path. */
  function FindEntry(entries: seq<PlanEntry>, path: Text): Option<PlanEntry> {
    if entries == [] then None
    else if EntryPath(entries[0]) == path then Some(entries[0])
    else FindEntry(entries[1..], path)
  }

  /** The readings of the candidates whose plan entry requires one. */
  function CandidateReads(entries: seq<PlanEntry>, candidates: seq<Candidate>): seq<Read> {
    if candidates == [] then []
    else
      var entry := FindEntry(entries, candidates[0].meta.path);
      (if entry.Some? && Required(entry.value) then [Read(candidates[0].meta.path, candidates[0].bytes)] else [])
      + CandidateReads(entries, candidates[1..])
  }

  function SelectSources(env: Env, purpose: Purpose, candidates: seq<Candidate>): Result<SelectionResult, PackError> {
    var metas := CandidateMetas(candidates);
    if |candidates| > MAX_CANDIDATES then Err(BoundsExceeded)
    else if !AllValid(env, Paths(metas, MetaPath)) then Err(InvalidPath)
    else match BuildPlanSkeleton(env, metas)
      case Err(error) => Err(error)
      case Ok(entries) =>
        match PathsDigest(env.host, Paths(entries, EntryPath))
        case Err(error) => Err(error)
        case Ok(pathsDigest) =>
          SkeletonIsExplained(env, metas);
          match Completed(env, purpose, entries, CandidateReads(entries, candidates), pathsDigest)
          case Err(error) => Err(error)
          case Ok(selection) =>
            match FinalizeReadPlan(env, purpose, entries)
            case Err(error) => Err(error)
            case Ok(plan) => if selection.pathsDigest != plan.pathsDigest then Err(IdentityMismatch) else Ok(selection)
  }

  lemma SkeletonIsExplained(env: Env, metas: seq<Metadata>)
    requires BuildPlanSkeleton(env, metas).Ok?
    ensures Explained(BuildPlanSkeleton(env, metas).value)
  {}
}
