/** Read plans: which ones are accepted, and that selecting in one step is planning, reading
    and completing. */
module ReadPlans {
  import opened Wrappers
  import opened Utf8Order
  import opened PathOrder
  import opened CandidatePaths
  import opened PackSelection
  import opened SelectionGuarantees

  function EntryMetas(entries: seq<PlanEntry>): (metas: seq<Metadata>)
    ensures |metas| == |entries| && forall i :: 0 <= i < |metas| ==> metas[i] == entries[i].meta
  {
    seq(|entries|, i requires 0 <= i < |entries| => entries[i].meta)
  }

  lemma ValidIsWellFormed(env: Env, ps: seq<Text>)
    requires AllValid(env, ps)
    ensures AllWellFormed(ps)
  {}

  lemma ValidPermutes(env: Env, ps: seq<Text>, qs: seq<Text>)
    requires AllValid(env, ps) && multiset(ps) == multiset(qs)
    ensures AllValid(env, qs)
  {
    forall q <- qs ensures ValidPath(env.host, q) { assert q in multiset(ps); }
  }

  lemma PairwiseIsDistinct(host: Host, ps: seq<Text>)
    requires PairwiseDistinct(host, ps)
    ensures Distinct(ps)
  {}

  /** What planning yields for valid metadata. */
  lemma SkeletonFacts(env: Env, metas: seq<Metadata>)
    requires AllValid(env, Paths(metas, MetaPath)) && BuildPlanSkeleton(env, metas).Ok?
    ensures var entries := BuildPlanSkeleton(env, metas).value; var paths := Paths(entries, EntryPath);
            && EntryMetas(entries) == SortBy(metas, MetaPath) && |entries| == |metas|
            && Planned(env, entries) && AllValid(env, paths) && PairwiseDistinct(env.host, paths)
            && PathsDigest(env.host, paths).Ok?
  {
    hide SortBy, Collision, WellFormed, PathsDigest, ClassifyBeforeRead, StrictlyAscending, PairwiseDistinct, Distinct;
    var sorted := SortBy(metas, MetaPath);
    var entries := PlanEntries(env, sorted);
    var paths := Paths(sorted, MetaPath);
    assert Paths(entries, EntryPath) == paths;
    SortPermutes(metas, MetaPath);
    assert |sorted| == |multiset(sorted)| == |multiset(metas)| == |metas|;
    BagOfPermuted(metas, sorted, MetaPath);
    ValidPermutes(env, Paths(metas, MetaPath), paths);
    ValidIsWellFormed(env, Paths(metas, MetaPath));
    ValidIsWellFormed(env, paths);
    CollisionIsPairwise(env.host, paths);
    PairwiseIsDistinct(env.host, paths);
    SortAscends(metas, MetaPath);
    StrictMeansDistinct(paths);
    PathsDigestExists(env.host, paths);
  }

  /** Metadata that is already in strict order and free of collisions plans to itself. */
  lemma SortedPlansToItself(env: Env, metas: seq<Metadata>)
    requires AllWellFormed(Paths(metas, MetaPath)) && StrictlyAscending(Paths(metas, MetaPath))
    requires PairwiseDistinct(env.host, Paths(metas, MetaPath))
    ensures BuildPlanSkeleton(env, metas) == Ok(PlanEntries(env, metas))
  {
    SortOfSorted(metas, MetaPath);
    CollisionIsPairwise(env.host, Paths(metas, MetaPath));
  }

  lemma {:induction false} NoEntryError(env: Env, entries: seq<PlanEntry>)
    requires forall e <- entries :: e == PlanEntryOf(env, e.meta)
    requires AllValid(env, Paths(entries, EntryPath))
    ensures EntryError(env, entries) == None
  {
    hide ValidPath, ClassifyBeforeRead;
    if entries != [] {
      assert entries[0] in entries && Paths(entries, EntryPath)[0] in Paths(entries, EntryPath);
      assert Paths(entries, EntryPath)[1..] == Paths(entries[1..], EntryPath);
      NoEntryError(env, entries[1..]);
    }
  }

  /** A made plan passes the check unchanged. */
  lemma MadePlansNormalize(env: Env, purpose: Purpose, metas: seq<Metadata>)
    requires PlanCandidateReads(env, purpose, metas).Ok?
    ensures var plan := PlanCandidateReads(env, purpose, metas).value; NormalizeReadPlan(env, plan) == Ok(plan)
  {
    hide BuildPlanSkeleton, SortBy, Collision, PathsDigest, EntryError, Filter, WellFormed, StrictlyAscending,
         ClassifyBeforeRead;
    var plan := PlanCandidateReads(env, purpose, metas).value;
    SkeletonFacts(env, metas);
    NoEntryError(env, plan.entries);
    SortOfSorted(plan.entries, EntryPath);
    CollisionIsPairwise(env.host, Paths(plan.entries, EntryPath));
  }

  /** A plan that passes is the one planning makes of the metadata in it. */
  lemma NormalizedPlansAreMade(env: Env, plan: Plan)
    requires NormalizeReadPlan(env, plan).Ok?
    ensures NormalizeReadPlan(env, plan) == Ok(plan)
    ensures PlanCandidateReads(env, plan.purpose, EntryMetas(plan.entries)) == Ok(plan)
  {
    hide SortBy, Collision, PathsDigest, EntryError, Filter, WellFormed, StrictlyAscending, PairwiseDistinct,
         ClassifyBeforeRead;
    var entries, metas := plan.entries, EntryMetas(plan.entries);
    var paths := Paths(entries, EntryPath);
    NormalizedIsExplained(env, entries);
    ValidIsWellFormed(env, paths);
    assert Paths(metas, MetaPath) == paths;
    SortAscends(entries, EntryPath);
    CollisionIsPairwise(env.host, paths);
    PairwiseIsDistinct(env.host, paths);
    StrictMeansDistinct(paths);
    SortedPlansToItself(env, metas);
    assert PlanEntries(env, metas) == entries;
  }

  /** A received plan is accepted exactly when planning the metadata in it makes that very
      plan, and nothing in it is altered. */
  lemma PlanAcceptedExactly(env: Env, plan: Plan)
    ensures NormalizeReadPlan(env, plan) == Ok(plan)
       <==> PlanCandidateReads(env, plan.purpose, EntryMetas(plan.entries)) == Ok(plan)
    ensures NormalizeReadPlan(env, plan).Ok? ==> NormalizeReadPlan(env, plan) == Ok(plan)
  {
    hide NormalizeReadPlan, PlanCandidateReads;
    if NormalizeReadPlan(env, plan).Ok? { NormalizedPlansAreMade(env, plan); }
    if PlanCandidateReads(env, plan.purpose, EntryMetas(plan.entries)) == Ok(plan) {
      MadePlansNormalize(env, plan.purpose, EntryMetas(plan.entries));
    }
  }

  // ---------- order does not matter ----------

  lemma SkeletonPermutes(env: Env, metas: seq<Metadata>, others: seq<Metadata>)
    requires multiset(metas) == multiset(others) && AllValid(env, Paths(metas, MetaPath))
    ensures BuildPlanSkeleton(env, metas) == BuildPlanSkeleton(env, others)
  {
    hide SortBy, Collision, WellFormed, PairwiseDistinct, PlanEntries;
    ValidIsWellFormed(env, Paths(metas, MetaPath));
    SortedPaths(metas, others, MetaPath);
    var sorted := SortBy(metas, MetaPath);
    CollisionIsPairwise(env.host, Paths(sorted, MetaPath));
    if Collision(env.host, Paths(sorted, MetaPath)).None? {
      PairwiseIsDistinct(env.host, Paths(sorted, MetaPath));
      SortPermutes(metas, MetaPath);
      BagOfPermuted(sorted, metas, MetaPath);
      PermutedDistinct(Paths(sorted, MetaPath), Paths(metas, MetaPath));
      SortUnique(metas, others, MetaPath);
    }
  }

  /** A read is found again in a permuted list. */
  lemma ReadMapPermutes(readings: seq<Read>, others: seq<Read>)
    requires multiset(readings) == multiset(others) && Distinct(Paths(readings, ReadPath))
    ensures ReadMap(readings) == ReadMap(others)
  {
    hide ReadMap, Paths, Distinct;
    var m, n := ReadMap(readings), ReadMap(others);
    BagOfPermuted(readings, others, ReadPath);
    PermutedDistinct(Paths(readings, ReadPath), Paths(others, ReadPath));
    SamePathSet(Paths(readings, ReadPath), Paths(others, ReadPath));
    assert forall p :: p in m <==> p in n;
    forall p <- m ensures m[p] == n[p] {
      assert Read(p, m[p]) in multiset(others);
      OneReading(others, p, m[p], n[p]);
    }
  }

  lemma OneReading(readings: seq<Read>, p: Text, a: Bytes, b: Bytes)
    requires Distinct(Paths(readings, ReadPath)) && Read(p, a) in readings && Read(p, b) in readings
    ensures a == b
  {
    var i :| 0 <= i < |readings| && readings[i] == Read(p, a);
    var j :| 0 <= j < |readings| && readings[j] == Read(p, b);
    assert Paths(readings, ReadPath)[i] == Paths(readings, ReadPath)[j];
  }

  lemma SamePathSet(ps: seq<Text>, qs: seq<Text>)
    requires multiset(ps) == multiset(qs)
    ensures forall p :: p in ps <==> p in qs
  {
    assert forall p :: p in ps <==> p in multiset(ps);
    assert forall p :: p in qs <==> p in multiset(qs);
  }

  lemma CompletedPermutes(env: Env, purpose: Purpose, entries: seq<PlanEntry>, readings: seq<Read>, others: seq<Read>,
                          pathsDigest: Digest)
    requires Explained(entries) && multiset(readings) == multiset(others)
    ensures Completed(env, purpose, entries, readings, pathsDigest)
        == Completed(env, purpose, entries, others, pathsDigest)
  {
    hide ReadMap, Sources, Filter, ResultOf, Explained;
    var ps, qs := Paths(readings, ReadPath), Paths(others, ReadPath);
    BagOfPermuted(readings, others, ReadPath);
    SamePathSet(ps, qs);
    assert |readings| == |multiset(readings)| == |others|;
    if Distinct(ps) {
      PermutedDistinct(ps, qs);
      ReadMapPermutes(readings, others);
    } else if Distinct(qs) {
      PermutedDistinct(qs, ps);
    }
  }

  lemma {:induction false} CandidateReadsAreCandidates(entries: seq<PlanEntry>, candidates: seq<Candidate>)
    ensures var readings := CandidateReads(entries, candidates);
            |readings| <= |candidates| && forall r <- readings :: r.path in Paths(CandidateMetas(candidates), MetaPath)
  {
    if candidates != [] {
      var ps := Paths(CandidateMetas(candidates), MetaPath);
      CandidateReadsAreCandidates(entries, candidates[1..]);
      assert Paths(CandidateMetas(candidates[1..]), MetaPath) == ps[1..];
      assert ps[0] in ps;
    }
  }

  lemma ReadingsAreValid(env: Env, entries: seq<PlanEntry>, candidates: seq<Candidate>, readings: seq<Read>)
    requires AllValid(env, Paths(CandidateMetas(candidates), MetaPath)) && |candidates| <= MAX_CANDIDATES
    requires multiset(readings) == multiset(CandidateReads(entries, candidates))
    ensures |readings| <= MAX_CANDIDATES && AllValid(env, Paths(readings, ReadPath))
  {
    hide ValidPath, CandidateReads;
    CandidateReadsAreCandidates(entries, candidates);
    assert |readings| == |multiset(readings)| == |CandidateReads(entries, candidates)|;
    forall p <- Paths(readings, ReadPath) ensures ValidPath(env.host, p) {
      var i :| 0 <= i < |readings| && Paths(readings, ReadPath)[i] == p;
      assert readings[i] in multiset(CandidateReads(entries, candidates));
    }
  }

  /** Selecting from candidates is planning their metadata, reading what the plan asks
      for, and completing the plan: whatever the order of the metadata and of the reads,
      and down to the same error. */
  lemma RoutesAgree(env: Env, purpose: Purpose, candidates: seq<Candidate>, metas: seq<Metadata>, readings: seq<Read>)
    requires multiset(metas) == multiset(CandidateMetas(candidates))
    requires PlanCandidateReads(env, purpose, metas).Ok? ==>
               multiset(readings) == multiset(CandidateReads(PlanCandidateReads(env, purpose, metas).value.entries,
                                                             candidates))
    ensures SelectSources(env, purpose, candidates)
         == match PlanCandidateReads(env, purpose, metas)
            case Err(error) => Err(error)
            case Ok(plan) => CompleteFromPlan(env, plan, readings)
  {
    hide BuildPlanSkeleton, Completed, NormalizeReadPlan, PathsDigest, CandidateReads, Filter, AllValid, Explained;
    var own := CandidateMetas(candidates);
    assert |metas| == |multiset(metas)| == |own| == |candidates|;
    BagOfPermuted(metas, own, MetaPath);
    if AllValid(env, Paths(own, MetaPath)) {
      ValidPermutes(env, Paths(own, MetaPath), Paths(metas, MetaPath));
      SkeletonPermutes(env, own, metas);
      if |metas| <= MAX_CANDIDATES && BuildPlanSkeleton(env, own).Ok? {
        RoutesAgreeOnEntries(env, purpose, candidates, metas, readings);
      }
    } else if AllValid(env, Paths(metas, MetaPath)) {
      ValidPermutes(env, Paths(metas, MetaPath), Paths(own, MetaPath));
    }
  }

  lemma CompletedKeepsDigest(env: Env, purpose: Purpose, entries: seq<PlanEntry>, readings: seq<Read>,
                             pathsDigest: Digest)
    requires Explained(entries)
    ensures var result := Completed(env, purpose, entries, readings, pathsDigest);
            result.Ok? ==> result.value.pathsDigest == pathsDigest
  {}

  /** Once planned, selecting is completing from the candidates' own bytes. */
  lemma SelectIsComplete(env: Env, purpose: Purpose, candidates: seq<Candidate>, entries: seq<PlanEntry>,
                         pathsDigest: Digest)
    requires |candidates| <= MAX_CANDIDATES && AllValid(env, Paths(CandidateMetas(candidates), MetaPath))
    requires BuildPlanSkeleton(env, CandidateMetas(candidates)) == Ok(entries) && Explained(entries)
    requires PathsDigest(env.host, Paths(entries, EntryPath)) == Ok(pathsDigest)
    ensures SelectSources(env, purpose, candidates)
         == Completed(env, purpose, entries, CandidateReads(entries, candidates), pathsDigest)
  {
    hide BuildPlanSkeleton, Completed, PathsDigest, CandidateReads, Filter, AllValid, Explained;
    CompletedKeepsDigest(env, purpose, entries, CandidateReads(entries, candidates), pathsDigest);
  }

  lemma PlanOfSkeleton(env: Env, purpose: Purpose, metas: seq<Metadata>)
    requires |metas| <= MAX_CANDIDATES && AllValid(env, Paths(metas, MetaPath)) && BuildPlanSkeleton(env, metas).Ok?
    ensures PlanCandidateReads(env, purpose, metas).Ok?
    ensures var plan := PlanCandidateReads(env, purpose, metas).value;
            && plan.entries == BuildPlanSkeleton(env, metas).value && plan.purpose == purpose
            && PathsDigest(env.host, Paths(plan.entries, EntryPath)) == Ok(plan.pathsDigest)
  {
    hide BuildPlanSkeleton, PathsDigest, Filter, AllValid, Planned;
    SkeletonFacts(env, metas);
  }

  lemma CompleteOfPlan(env: Env, plan: Plan, readings: seq<Read>)
    requires NormalizeReadPlan(env, plan) == Ok(plan) && Explained(plan.entries)
    requires |readings| <= MAX_CANDIDATES && AllValid(env, Paths(readings, ReadPath))
    ensures CompleteFromPlan(env, plan, readings)
        == Completed(env, plan.purpose, plan.entries, readings, plan.pathsDigest)
  {
    hide NormalizeReadPlan, Completed, AllValid, Explained;
  }

  lemma RoutesAgreeOnEntries(env: Env, purpose: Purpose, candidates: seq<Candidate>, metas: seq<Metadata>,
                             readings: seq<Read>)
    requires |metas| == |candidates| <= MAX_CANDIDATES
    requires AllValid(env, Paths(metas, MetaPath)) && AllValid(env, Paths(CandidateMetas(candidates), MetaPath))
    requires BuildPlanSkeleton(env, metas) == BuildPlanSkeleton(env, CandidateMetas(candidates))
    requires BuildPlanSkeleton(env, metas).Ok?
    requires PlanCandidateReads(env, purpose, metas).Ok? ==>
               multiset(readings) == multiset(CandidateReads(PlanCandidateReads(env, purpose, metas).value.entries,
                                                             candidates))
    ensures PlanCandidateReads(env, purpose, metas).Ok?
    ensures SelectSources(env, purpose, candidates)
        == CompleteFromPlan(env, PlanCandidateReads(env, purpose, metas).value, readings)
  {
    hide *;
    SkeletonFacts(env, metas);
    PlanOfSkeleton(env, purpose, metas);
    var entries := BuildPlanSkeleton(env, metas).value;
    var plan := PlanCandidateReads(env, purpose, metas).value;
    PlannedIsExplained(env, entries);
    MadePlansNormalize(env, purpose, metas);
    ReadingsAreValid(env, entries, candidates, readings);
    SelectIsComplete(env, purpose, candidates, entries, plan.pathsDigest);
    CompletedPermutes(env, purpose, entries, readings, CandidateReads(entries, candidates), plan.pathsDigest);
    CompleteOfPlan(env, plan, readings);
  }
}
