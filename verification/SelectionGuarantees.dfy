/** What every accepted selection guarantees: its files and exclusions share out the
    candidates, the limits hold, and every outcome is the one the rules give. */
module SelectionGuarantees {
  import opened Wrappers
  import opened Utf8Order
  import opened PathOrder
  import opened CandidatePaths
  import opened PackSelection

  /** Entries as planning leaves them: classified, valid, and in strict order. */
  predicate Planned(env: Env, entries: seq<PlanEntry>) {
    && (forall e <- entries :: e == PlanEntryOf(env, e.meta))
    && AllWellFormed(Paths(entries, EntryPath))
    && StrictlyAscending(Paths(entries, EntryPath))
  }

  lemma PlannedIsExplained(env: Env, entries: seq<PlanEntry>)
    requires Planned(env, entries)
    ensures Explained(entries)
  {}

  // ---------- sharing out ----------

  lemma BagSnoc<T>(xs: seq<T>, x: T, path: T -> Text)
    ensures Bag(xs + [x], path) == Bag(xs, path) + multiset{path(x)}
  {
    assert Paths(xs + [x], path) == Paths(xs, path) + [path(x)];
  }

  lemma BagConcat<T>(xs: seq<T>, ys: seq<T>, path: T -> Text)
    ensures Bag(xs + ys, path) == Bag(xs, path) + Bag(ys, path)
  {
    assert Paths(xs + ys, path) == Paths(xs, path) + Paths(ys, path);
  }

  lemma {:induction false} PlanSharesOut(entries: seq<PlanEntry>, m: map<Text, Bytes>)
    requires Explained(entries)
    ensures Bag(PlanExclusions(entries), ExclusionPath) + Bag(Sources(entries, m), SourcePath)
        == Bag(entries, EntryPath)
  {
    hide Bag;
    if entries == [] {
      assert Bag(PlanExclusions(entries), ExclusionPath) + Bag(Sources(entries, m), SourcePath)
          == Bag(entries, EntryPath) by {
        NoBags();
      }
    } else {
      var front, last := entries[..|entries| - 1], entries[|entries| - 1];
      assert entries == front + [last];
      PlanSharesOut(front, m);
      BagSnoc(front, last, EntryPath);
      assert PlanExclusions(front) + [] == PlanExclusions(front) && Sources(front, m) + [] == Sources(front, m);
      if NotRequired(last) {
        BagSnoc(PlanExclusions(front), Exclusion(EntryPath(last), last.reason.value), ExclusionPath);
      } else {
        BagSnoc(Sources(front, m), Sources(entries, m)[|Sources(front, m)|], SourcePath);
      }
    }
  }

  lemma NoBags()
    ensures Bag([], EntryPath) == Bag([], SourcePath) == Bag([], ExclusionPath) == multiset{}
  {}

  lemma {:induction false} ReadingSharesOut(env: Env, sources: seq<Source>)
    ensures Bag(ReadExclusions(env, sources), ExclusionPath) + Bag(ValidSources(env, sources), SourcePath)
        == Bag(sources, SourcePath)
  {
    hide Bag, Filter;
    if sources == [] {
      EmptyStart(env, [], map[]);
      NoBags();
    } else {
      var front, last := sources[..|sources| - 1], sources[|sources| - 1];
      assert sources == front + [last];
      ReadingSharesOut(env, front);
      BagSnoc(front, last, SourcePath);
      FilterSnoc(front, last, Small);
      FilterSnoc(Filter(front, Small), last, Decodes(env));
      assert Filter(front, Small) + [] == Filter(front, Small);
      assert ValidSources(env, front) + [] == ValidSources(env, front);
      assert ReadExclusions(env, front) + [] == ReadExclusions(env, front);
      if Small(last) && env.utf8(last.bytes) {
        BagSnoc(ValidSources(env, front), last, SourcePath);
      } else {
        BagSnoc(ReadExclusions(env, front),
                Exclusion(SourcePath(last), if Small(last) then InvalidUtf8 else FileSizeLimit), ExclusionPath);
      }
    }
  }

  lemma {:induction false} LimitsShareOut(valid: seq<Source>)
    ensures Bag(LimitExclusions(valid), ExclusionPath) + Bag(Accepted(valid), SourcePath) == Bag(valid, SourcePath)
  {
    hide Bag, Fits;
    if valid == [] {
      NoBags();
    } else {
      var front, last := valid[..|valid| - 1], valid[|valid| - 1];
      assert valid == front + [last];
      LimitsShareOut(front);
      BagSnoc(front, last, SourcePath);
      assert Accepted(front) + [] == Accepted(front) && LimitExclusions(front) + [] == LimitExclusions(front);
      if Fits(Accepted(front), last) {
        BagSnoc(Accepted(front), last, SourcePath);
      } else {
        BagSnoc(LimitExclusions(front), LimitExclusions(valid)[|LimitExclusions(front)|], ExclusionPath);
      }
    }
  }

  /** Every candidate is included or excluded, once. */
  lemma SelectionSharesOut(env: Env, entries: seq<PlanEntry>, m: map<Text, Bytes>)
    requires Explained(entries)
    ensures var sources := Sources(entries, m);
            Bag(AllExclusions(env, entries, sources), ExclusionPath)
            + Bag(Accepted(ValidSources(env, sources)), SourcePath)
            == Bag(entries, EntryPath)
  {
    hide Bag, Sources, ValidSources, Accepted, PlanExclusions, ReadExclusions, LimitExclusions;
    var sources := Sources(entries, m);
    var valid := ValidSources(env, sources);
    PlanSharesOut(entries, m);
    ReadingSharesOut(env, sources);
    LimitsShareOut(valid);
    BagConcat(PlanExclusions(entries) + ReadExclusions(env, sources), LimitExclusions(valid), ExclusionPath);
    BagConcat(PlanExclusions(entries), ReadExclusions(env, sources), ExclusionPath);
  }

  // ---------- order and limits ----------

  lemma {:induction false} SourcePaths(entries: seq<PlanEntry>, m: map<Text, Bytes>)
    ensures Paths(Sources(entries, m), SourcePath) == Paths(Filter(entries, Required), EntryPath)
  {
    if entries != [] {
      var front, last := entries[..|entries| - 1], entries[|entries| - 1];
      assert entries == front + [last];
      SourcePaths(front, m);
      FilterSnoc(front, last, Required);
    }
  }

  lemma ValidStrict(env: Env, entries: seq<PlanEntry>, m: map<Text, Bytes>)
    requires StrictlyAscending(Paths(entries, EntryPath))
    ensures StrictlyAscending(Paths(ValidSources(env, Sources(entries, m)), SourcePath))
  {
    hide Filter, Sources, StrictlyAscending, Paths;
    var sources := Sources(entries, m);
    SourcePaths(entries, m);
    FilterStrict(entries, Required, EntryPath);
    FilterStrict(sources, Small, SourcePath);
    FilterStrict(Filter(sources, Small), Decodes(env), SourcePath);
  }

  lemma {:induction false} AcceptedStrict(valid: seq<Source>)
    requires StrictlyAscending(Paths(valid, SourcePath))
    ensures StrictlyAscending(Paths(Accepted(valid), SourcePath))
  {
    hide Below, Fits;
    if valid != [] {
      var front, last := valid[..|valid| - 1], valid[|valid| - 1];
      assert Paths(front, SourcePath) == Paths(valid, SourcePath)[..|valid| - 1];
      AcceptedStrict(front);
      forall s <- Accepted(front) ensures Below(SourcePath(s), SourcePath(last)) {
        var i :| 0 <= i < |front| && front[i] == s;
        assert Below(Paths(valid, SourcePath)[i], Paths(valid, SourcePath)[|valid| - 1]);
      }
    }
  }

  lemma {:induction false} AcceptedWithinLimits(valid: seq<Source>)
    ensures |Accepted(valid)| <= MAX_FILES && Sum(Accepted(valid)) <= MAX_TOTAL_BYTES
  {
    if valid != [] {
      var front, last := valid[..|valid| - 1], valid[|valid| - 1];
      AcceptedWithinLimits(front);
      assert Accepted(front) + [] == Accepted(front);
      SumSnoc(Accepted(front), last);
    }
  }

  function ByteSum(files: seq<FileEntry>): int {
    if files == [] then 0 else ByteSum(files[..|files| - 1]) + files[|files| - 1].byteCount
  }

  lemma {:induction false} SumOfIncluded(env: Env, accepted: seq<Source>)
    ensures ByteSum(IncludedEntries(env, accepted)) == Sum(accepted)
  {
    if accepted != [] {
      SumOfIncluded(env, accepted[..|accepted| - 1]);
      assert IncludedEntries(env, accepted)[..|accepted| - 1] == IncludedEntries(env, accepted[..|accepted| - 1]);
    }
  }

  /** What holds of a selection, whatever was read: included and excluded paths are each in
      strict order and share out the candidates, all limits hold, and the totals are the
      real sums. */
  ghost predicate Sound(entries: seq<PlanEntry>, selection: SelectionResult) {
    && StrictlyAscending(Paths(selection.included, FilePath))
    && StrictlyAscending(Paths(selection.exclusions, ExclusionPath))
    && Bag(selection.included, FilePath) + Bag(selection.exclusions, ExclusionPath) == Bag(entries, EntryPath)
    && |selection.included| <= MAX_FILES
    && (forall f <- selection.included :: 0 <= f.byteCount <= MAX_FILE_BYTES)
    && ByteSum(selection.included) <= MAX_TOTAL_BYTES
    && selection.totals == Totals(|entries|, |selection.included|, |selection.exclusions|, ByteSum(selection.included))
    && |entries| == |selection.included| + |selection.exclusions|
  }

  lemma IncludedPaths(env: Env, accepted: seq<Source>)
    ensures Paths(IncludedEntries(env, accepted), FilePath) == Paths(accepted, SourcePath)
  {}

  lemma PartDistinct<T, U>(xs: seq<T>, path: T -> Text, ys: seq<U>, of: U -> Text)
    requires Distinct(Paths(ys, of)) && Bag(xs, path) <= Bag(ys, of)
    ensures Distinct(Paths(xs, path))
  {
    var ps, qs := Paths(xs, path), Paths(ys, of);
    DistinctCounts(qs);
    forall p <- ps ensures multiset(ps)[p] == 1 { assert p in multiset(ps) && p in multiset(qs); }
    CountsDistinct(ps);
  }

  lemma PartWellFormed<T, U>(xs: seq<T>, path: T -> Text, ys: seq<U>, of: U -> Text)
    requires AllWellFormed(Paths(ys, of)) && Bag(xs, path) <= Bag(ys, of)
    ensures AllWellFormed(Paths(xs, path))
  {
    hide WellFormed;
    forall p <- Paths(xs, path) ensures WellFormed(p) { assert p in Bag(xs, path) && p in Bag(ys, of); }
  }

  lemma StrictDistinct(ps: seq<Text>)
    requires StrictlyAscending(ps)
    ensures Distinct(ps)
  {
    hide Below;
    forall i, j | 0 <= i < j < |ps| ensures ps[i] != ps[j] {
      assert Below(ps[i], ps[j]);
      if ps[i] == ps[j] { NotBelowSelf(ps[i]); }
    }
  }

  lemma NotBelowSelf(p: Text)
    ensures !Below(p, p)
  {
    if WellFormed(p) { BelowTotal(p, p); }
  }

  /** Exclusions before they are sorted have distinct, well-formed paths. */
  lemma ExclusionsSort(env: Env, entries: seq<PlanEntry>, m: map<Text, Bytes>)
    requires Planned(env, entries) && Explained(entries)
    ensures var all := AllExclusions(env, entries, Sources(entries, m)); var sorted := SortBy(all, ExclusionPath);
            && multiset(sorted) == multiset(all)
            && StrictlyAscending(Paths(sorted, ExclusionPath))
            && Bag(sorted, ExclusionPath) == Bag(all, ExclusionPath)
  {
    hide Sources, AllExclusions, Accepted, ValidSources, SortBy, Paths, WellFormed;
    var all := AllExclusions(env, entries, Sources(entries, m));
    SelectionSharesOut(env, entries, m);
    StrictDistinct(Paths(entries, EntryPath));
    PartDistinct(all, ExclusionPath, entries, EntryPath);
    PartWellFormed(all, ExclusionPath, entries, EntryPath);
    SortStrict(all, ExclusionPath);
    SortPermutes(all, ExclusionPath);
  }

  lemma BagSize<T>(xs: seq<T>, path: T -> Text)
    ensures |Bag(xs, path)| == |xs|
  {}

  lemma SelectionIsSound(env: Env, purpose: Purpose, entries: seq<PlanEntry>, m: map<Text, Bytes>, pathsDigest: Digest)
    requires Planned(env, entries) && Explained(entries)
    ensures Sound(entries, ResultOf(env, purpose, entries, Sources(entries, m), pathsDigest))
  {
    hide Sources, AllExclusions, Accepted, ValidSources, SortBy, Bag, Paths, StrictlyAscending, WellFormed;
    var sources := Sources(entries, m);
    var selection := ResultOf(env, purpose, entries, sources, pathsDigest);
    var accepted := Accepted(ValidSources(env, sources));
    ValidStrict(env, entries, m);
    AcceptedStrict(ValidSources(env, sources));
    IncludedPaths(env, accepted);
    ExclusionsSort(env, entries, m);
    SelectionSharesOut(env, entries, m);
    assert Bag(selection.included, FilePath) == Bag(accepted, SourcePath) by {
      BagOfSamePaths(selection.included, FilePath, accepted, SourcePath);
    }
    AcceptedWithinLimits(ValidSources(env, sources));
    SumOfIncluded(env, accepted);
    forall f <- selection.included ensures 0 <= f.byteCount <= MAX_FILE_BYTES { AcceptedAreSmall(env, sources); }
    BagSize(selection.included, FilePath);
    BagSize(selection.exclusions, ExclusionPath);
    BagSize(entries, EntryPath);
  }

  lemma BagOfSamePaths<T, U>(xs: seq<T>, path: T -> Text, ys: seq<U>, of: U -> Text)
    requires Paths(xs, path) == Paths(ys, of)
    ensures Bag(xs, path) == Bag(ys, of)
  {}

  lemma AcceptedAreSmall(env: Env, sources: seq<Source>)
    ensures forall s <- Accepted(ValidSources(env, sources)) :: Small(s) && s in sources
  {
    hide Accepted, Filter;
  }

  // ---------- the outcome of every candidate ----------

  function FileBefore(p: Text): FileEntry -> bool { (f: FileEntry) => Below(f.path, p) }

  function SourceBefore(p: Text): Source -> bool { (s: Source) => Below(SourcePath(s), p) }

  /** The reason for which a candidate is left out, if it is, given the files that are
      included: an earlier rule first, and the limits counted over the included files
      before it in byte order. */
  function Verdict(env: Env, included: seq<FileEntry>, m: map<Text, Bytes>, e: PlanEntry): Option<Reason> {
    var p := EntryPath(e);
    if ClassifyBeforeRead(env, e.meta).Some? then ClassifyBeforeRead(env, e.meta)
    else
      var bytes := if p in m then m[p] else [];
      var before := Filter(included, FileBefore(p));
      if |bytes| > MAX_FILE_BYTES then Some(FileSizeLimit)
      else if !env.utf8(bytes) then Some(InvalidUtf8)
      else if |before| >= MAX_FILES then Some(FileCountLimit)
      else if ByteSum(before) + |bytes| > MAX_TOTAL_BYTES then Some(AggregateSizeLimit)
      else None
  }

  /** The files accepted before one are those accepted of the list up to it. */
  lemma {:induction false} AcceptedBefore(valid: seq<Source>, k: nat)
    requires k < |valid| && StrictlyAscending(Paths(valid, SourcePath))
    ensures Filter(Accepted(valid), SourceBefore(SourcePath(valid[k]))) == Accepted(valid[..k])
  {
    hide Below, Fits;
    var ps, p := Paths(valid, SourcePath), SourcePath(valid[k]);
    var front, last := valid[..|valid| - 1], valid[|valid| - 1];
    assert Paths(front, SourcePath) == ps[..|valid| - 1];
    if k < |front| {
      AcceptedBefore(front, k);
      assert front[..k] == valid[..k];
      assert Below(ps[k], ps[|valid| - 1]);
      BelowOneWay(p, SourcePath(last));
      FilterSnoc(Accepted(front), last, SourceBefore(p));
      assert Accepted(front) + [] == Accepted(front);
    } else {
      assert front == valid[..k];
      forall s <- Accepted(front) ensures Below(SourcePath(s), p) {
        var i :| 0 <= i < |front| && front[i] == s;
        assert Below(ps[i], ps[k]);
      }
      FilterAll(Accepted(front), SourceBefore(p));
      NotBelowSelf(p);
      FilterSnoc(Accepted(front), last, SourceBefore(p));
      assert Accepted(front) + [] == Accepted(front);
    }
  }

  lemma {:induction false} FilterAll<T>(xs: seq<T>, keep: T -> bool)
    requires forall x <- xs :: keep(x)
    ensures Filter(xs, keep) == xs
  {
    if xs != [] {
      var front, last := xs[..|xs| - 1], xs[|xs| - 1];
      assert xs == front + [last];
      FilterAll(front, keep);
      FilterLast(front, last, keep);
    }
  }

  lemma FilterLast<T>(front: seq<T>, last: T, keep: T -> bool)
    requires Filter(front, keep) == front && keep(last)
    ensures Filter(front + [last], keep) == front + [last]
  {
    hide Filter;
    FilterSnoc(front, last, keep);
  }

  lemma {:induction false} IncludedFilter(env: Env, accepted: seq<Source>, p: Text)
    ensures Filter(IncludedEntries(env, accepted), FileBefore(p))
        == IncludedEntries(env, Filter(accepted, SourceBefore(p)))
  {
    hide Below;
    if accepted != [] {
      var front, last := accepted[..|accepted| - 1], accepted[|accepted| - 1];
      var files := IncludedEntries(env, accepted);
      assert files[..|accepted| - 1] == IncludedEntries(env, front);
      IncludedFilter(env, front, p);
    }
  }

  /** A valid file is accepted or limited by what was accepted before it. */
  lemma {:induction false} LimitOutcome(valid: seq<Source>, k: nat)
    requires k < |valid|
    ensures var before, s := Accepted(valid[..k]), valid[k];
            && (Fits(before, s) ==> s in Accepted(valid))
            && (!Fits(before, s) ==>
                  Exclusion(SourcePath(s), if |before| >= MAX_FILES then FileCountLimit else AggregateSizeLimit)
                  in LimitExclusions(valid))
  {
    hide Fits;
    var front := valid[..|valid| - 1];
    if k < |front| {
      assert front[..k] == valid[..k];
      LimitOutcome(front, k);
    } else {
      assert front == valid[..k];
    }
  }

  lemma {:induction false} PlanOutcome(entries: seq<PlanEntry>, m: map<Text, Bytes>, i: nat)
    requires Explained(entries) && i < |entries|
    ensures var e := entries[i];
            && (NotRequired(e) ==> Exclusion(EntryPath(e), e.reason.value) in PlanExclusions(entries))
            && (Required(e) ==> Source(e, if EntryPath(e) in m then m[EntryPath(e)] else []) in Sources(entries, m))
  {
    var front := entries[..|entries| - 1];
    assert entries == front + [entries[|entries| - 1]];
    if i < |front| { PlanOutcome(front, m, i); }
  }

  lemma {:induction false} ReadOutcome(env: Env, sources: seq<Source>, i: nat)
    requires i < |sources|
    ensures var s := sources[i];
            && (!Small(s) ==> Exclusion(SourcePath(s), FileSizeLimit) in ReadExclusions(env, sources))
            && (Small(s) && !env.utf8(s.bytes) ==>
                  Exclusion(SourcePath(s), InvalidUtf8) in ReadExclusions(env, sources))
            && (Small(s) && env.utf8(s.bytes) ==> s in ValidSources(env, sources))
  {
    var front := sources[..|sources| - 1];
    if i < |front| { ReadOutcome(env, front, i); }
    if Small(sources[i]) {
      assert sources[i] in sources;
      assert sources[i] in Filter(sources, Small);
    }
  }

  /** The verdict on a valid file is the one the greedy pass gave. */
  lemma LimitVerdict(env: Env, valid: seq<Source>, k: nat)
    requires k < |valid| && StrictlyAscending(Paths(valid, SourcePath))
    ensures var before := Filter(IncludedEntries(env, Accepted(valid)), FileBefore(SourcePath(valid[k])));
            |before| == |Accepted(valid[..k])| && ByteSum(before) == Sum(Accepted(valid[..k]))
  {
    hide Accepted, Filter, Below, ByteSum, Sum;
    AcceptedBefore(valid, k);
    IncludedFilter(env, Accepted(valid), SourcePath(valid[k]));
    SumOfIncluded(env, Accepted(valid[..k]));
  }

  /** A candidate with a verdict is excluded for it; one without is included. */
  lemma OutcomeFollowsVerdict(env: Env, entries: seq<PlanEntry>, m: map<Text, Bytes>, i: nat)
    requires Planned(env, entries) && Explained(entries) && i < |entries|
    ensures var sources := Sources(entries, m);
            var included := IncludedEntries(env, Accepted(ValidSources(env, sources)));
            var verdict := Verdict(env, included, m, entries[i]);
            && (verdict.Some? ==>
                  Exclusion(EntryPath(entries[i]), verdict.value) in AllExclusions(env, entries, sources))
            && (verdict.None? ==> exists f <- included :: f.path == EntryPath(entries[i]))
  {
    hide Sources, ReadExclusions, LimitExclusions, PlanExclusions, ValidSources, Accepted, Below, ByteSum, Sum, Filter,
         StrictlyAscending, WellFormed;
    var e, sources := entries[i], Sources(entries, m);
    var valid := ValidSources(env, sources);
    assert e == PlanEntryOf(env, e.meta);
    PlanOutcome(entries, m, i);
    if Required(e) {
      var s := Source(e, if EntryPath(e) in m then m[EntryPath(e)] else []);
      var j :| 0 <= j < |sources| && sources[j] == s;
      ReadOutcome(env, sources, j);
      if Small(s) && env.utf8(s.bytes) {
        var k :| 0 <= k < |valid| && valid[k] == s;
        ValidStrict(env, entries, m);
        LimitVerdict(env, valid, k);
        LimitOutcome(valid, k);
        if Fits(Accepted(valid[..k]), s) {
          var n :| 0 <= n < |Accepted(valid)| && Accepted(valid)[n] == s;
          assert IncludedEntries(env, Accepted(valid))[n].path == EntryPath(e);
        }
      }
    }
  }

  /** The outcome of every candidate, exactly: it is excluded for a reason if and only if
      that is its verdict, and included if and only if it has none. */
  lemma EveryOutcome(env: Env, purpose: Purpose, entries: seq<PlanEntry>, m: map<Text, Bytes>, pathsDigest: Digest,
                     i: nat, r: Reason)
    requires Planned(env, entries) && Explained(entries) && i < |entries|
    ensures var selection := ResultOf(env, purpose, entries, Sources(entries, m), pathsDigest);
            var p, verdict := EntryPath(entries[i]), Verdict(env, selection.included, m, entries[i]);
            && (Exclusion(p, r) in selection.exclusions <==> verdict == Some(r))
            && ((exists f <- selection.included :: f.path == p) <==> verdict == None)
  {
    hide Sources, AllExclusions, Accepted, ValidSources, SortBy, Bag, Verdict, Planned, StrictlyAscending;
    var sources := Sources(entries, m);
    var selection := ResultOf(env, purpose, entries, sources, pathsDigest);
    var p, verdict := EntryPath(entries[i]), Verdict(env, selection.included, m, entries[i]);
    OutcomeFollowsVerdict(env, entries, m, i);
    ExclusionsSort(env, entries, m);
    SelectionIsSound(env, purpose, entries, m, pathsDigest);
    assert verdict.Some? ==> Exclusion(p, verdict.value) in multiset(selection.exclusions);
    StrictDistinct(Paths(entries, EntryPath)) by { PlannedStrict(env, entries); }
    OnePlace(entries, selection, p, r, r);
    if verdict.Some? { OnePlace(entries, selection, p, verdict.value, r); }
  }

  lemma PlannedStrict(env: Env, entries: seq<PlanEntry>)
    requires Planned(env, entries)
    ensures StrictlyAscending(Paths(entries, EntryPath))
  {}

  lemma NotInBoth(ps: seq<Text>, fs: seq<Text>, xs: seq<Text>, p: Text)
    requires Distinct(ps) && multiset(fs) + multiset(xs) == multiset(ps)
    ensures p !in fs || p !in xs
  {
    DistinctCounts(ps);
    assert p in ps <==> p in multiset(ps);
    assert multiset(ps)[p] == multiset(fs)[p] + multiset(xs)[p];
  }

  /** A path is not both included and excluded, nor excluded for two reasons. */
  lemma OnePlace(entries: seq<PlanEntry>, selection: SelectionResult, p: Text, r: Reason, q: Reason)
    requires Sound(entries, selection) && Distinct(Paths(entries, EntryPath))
    ensures Exclusion(p, r) in selection.exclusions ==> !exists f <- selection.included :: f.path == p
    ensures Exclusion(p, r) in selection.exclusions && Exclusion(p, q) in selection.exclusions ==> r == q
  {
    hide WellFormed, StrictlyAscending;
    var xs, fs := Paths(selection.exclusions, ExclusionPath), Paths(selection.included, FilePath);
    StrictDistinct(xs);
    NotInBoth(Paths(entries, EntryPath), fs, xs, p);
    forall f <- selection.included ensures f.path in fs {
      var j :| 0 <= j < |selection.included| && selection.included[j] == f;
      assert fs[j] == f.path;
    }
    forall x <- selection.exclusions ensures x.path in xs {
      var j :| 0 <= j < |selection.exclusions| && selection.exclusions[j] == x;
      assert xs[j] == x.path;
    }
    forall i, j | 0 <= i < j < |xs| ensures selection.exclusions[i].path != selection.exclusions[j].path {
      assert xs[i] != xs[j];
    }
  }
}
