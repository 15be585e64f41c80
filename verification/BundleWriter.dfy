/** Writing a bundle: stage it, sync it, rename it into place, or clean up. */
module BundleWriter {
  import opened Wrappers
  import opened ExportDisk
  import opened ExportCleanup
  import opened BundleExport

  ghost predicate DirAt(content: Tree, r: Path) { r in content && content[r].Dir? }

  /** A tree with `content` hung into `base` at the staging name. */
  ghost predicate Staged(t: Tree, base: Tree, staging: Name, content: Tree) {
    && Rooted(base) && [staging] !in base && Rooted(t)
    && DirAt(content, []) && t == Placed(base, staging, content)
  }

  lemma StagedAt(t: Tree, base: Tree, staging: Name, content: Tree, r: Path)
    requires Staged(t, base, staging, content) && r != []
    ensures var p := [staging] + r;
            && (p in t <==> r in content)
            && (IsDir(t, Parent(p)) <==> DirAt(content, Parent(r)))
            && p[|p| - 1] == r[|r| - 1]
  {
    hide Placed, Rooted;
    var p := [staging] + r;
    PlacedAt(base, staging, content, p);
    assert Parent(p) == [staging] + Parent(r) && Parent(p) != [] && p[1..] == r && Parent(p)[1..] == Parent(r);
    PlacedAt(base, staging, content, Parent(p));
  }

  /** A node added below the staging name keeps the tree staged. */
  lemma StagedGrows(t: Tree, base: Tree, staging: Name, content: Tree, r: Path, node: Node)
    requires Staged(t, base, staging, content) && r != [] && Rooted(t[[staging] + r := node])
    ensures Staged(t[[staging] + r := node], base, staging, content[r := node])
  {
    hide Placed, Rooted;
    GrowPlaced(base, staging, content, r, node);
  }

  lemma StagedOutside(t: Tree, base: Tree, staging: Name, content: Tree)
    requires Staged(t, base, staging, content)
    ensures DirAt(t, [staging]) && SameOutside(base, t, staging)
  {
    hide Placed, Rooted;
    forall p ensures !([staging] <= p) ==> (p in base <==> p in t) && (p in base ==> base[p] == t[p]) {
      PlacedAt(base, staging, content, p);
    }
    PlacedAt(base, staging, content, [staging]);
    assert [staging][1..] == [];
  }

  /** Create a directory of the staged bundle. */
  method CreateStaged(disk: Disk, staging: Name, r: Path, ghost base: Tree, ghost content: Tree)
    returns (ok: bool, ghost after: Tree)
    requires Staged(disk.tree, base, staging, content) && r != []
    modifies disk
    ensures old(disk.calls) <= disk.calls && Staged(disk.tree, base, staging, after)
    ensures ok ==> disk.Calm(old(disk.calls), disk.calls) && after == content[r := Dir] && r !in content
    ensures disk.Calm(old(disk.calls), disk.calls) ==>
              ValidName(r[|r| - 1]) && r !in content && DirAt(content, Parent(r)) ==> ok
  {
    hide Staged, Rooted, Placed;
    StagedAt(disk.tree, base, staging, content, r);
    ghost var before := disk.tree;
    assert Rooted(before) by { StagedIsRooted(before, base, staging, content); }
    ok := disk.CreateDirectory([staging] + r);
    if ok || disk.tree != before {
      StagedGrows(before, base, staging, content, r, Dir);
      after := content[r := Dir];
    } else {
      after := content;
    }
  }

  lemma StagedIsRooted(t: Tree, base: Tree, staging: Name, content: Tree)
    requires Staged(t, base, staging, content)
    ensures Rooted(t)
  {}

  /** Write a file of the staged bundle. */
  method WriteStaged(disk: Disk, staging: Name, r: Path, bytes: Bytes, ghost base: Tree, ghost content: Tree)
    returns (ok: bool, ghost after: Tree)
    requires Staged(disk.tree, base, staging, content) && r != []
    modifies disk
    ensures old(disk.calls) <= disk.calls && Staged(disk.tree, base, staging, after)
    ensures ok ==> disk.Calm(old(disk.calls), disk.calls) && after == content[r := File(bytes)] && r !in content
    ensures disk.Calm(old(disk.calls), disk.calls) ==>
              ValidName(r[|r| - 1]) && r !in content && DirAt(content, Parent(r)) ==> ok
  {
    hide Staged, Rooted, Placed;
    StagedAt(disk.tree, base, staging, content, r);
    ghost var before := disk.tree;
    assert Rooted(before) by { StagedIsRooted(before, base, staging, content); }
    ok := disk.WriteNewFile([staging] + r, bytes);
    if ok {
      StagedGrows(before, base, staging, content, r, File(bytes));
      after := content[r := File(bytes)];
    } else if disk.tree == before {
      after := content;
    } else {
      ghost var part :| part <= bytes && disk.tree == before[[staging] + r := File(part)];
      StagedGrows(before, base, staging, content, r, File(part));
      after := content[r := File(part)];
    }
  }

  /** All directories of the sources, each after the one that holds it: the lookup of a
      parent directory never misses. */
  method MakeDirectories(disk: Disk, staging: Name, sources: seq<Source>, directories: seq<Path>, ghost base: Tree,
                         ghost content: Tree)
    returns (ok: bool, opened_: set<Path>, ghost after: Tree)
    requires Staged(disk.tree, base, staging, content) && AllPortable(sources)
    requires SortedByText(directories) && forall d :: d in directories <==> IsSourceDirectory(sources, d)
    requires DirAt(content, [SOURCES]) && forall r <- content :: r == [] || r == [MANIFEST] || r == [SOURCES]
    modifies disk
    ensures old(disk.calls) <= disk.calls && Staged(disk.tree, base, staging, after)
    ensures ok ==> disk.Calm(old(disk.calls), disk.calls) && after == WithDirectories(content, directories)
    ensures ok ==> forall d :: d in opened_ <==> d in directories
    ensures disk.Calm(old(disk.calls), disk.calls) ==> ok
  {
    hide Staged, WithDirectories, IsSourceDirectory, SortedByText, AllPortable, ValidName;
    opened_, after := {}, content;
    assert WithDirectories(content, directories[..0]) == content by { FirstDirectory(content, directories); }
    for i := 0 to |directories|
      invariant old(disk.calls) <= disk.calls && Staged(disk.tree, base, staging, after)
      invariant disk.Calm(old(disk.calls), disk.calls) && after == WithDirectories(content, directories[..i])
      invariant forall d :: d in opened_ <==> d in directories[..i]
    {
      var directory := directories[i];
      DirectoryReady(sources, directories, i, content);
      assert Parent(directory) == [] || Parent(directory) in opened_;
      ok, after := CreateStaged(disk, staging, [SOURCES] + directory, base, after);
      if !ok {
        return false, opened_, after;
      }
      opened_ := opened_ + {directory};
      NextDirectory(content, directories, i);
    }
    assert directories[..|directories|] == directories;
    return true, opened_, after;
  }

  lemma FirstDirectory(content: Tree, directories: seq<Path>)
    ensures WithDirectories(content, directories[..0]) == content
  {}

  lemma NextDirectory(content: Tree, directories: seq<Path>, i: nat)
    requires i < |directories|
    ensures WithDirectories(content, directories[..i + 1])
        == WithDirectories(content, directories[..i])[[SOURCES] + directories[i] := Dir]
    ensures forall d :: d in directories[..i + 1] <==> d in directories[..i] || d == directories[i]
  {
    assert directories[..i + 1] == directories[..i] + [directories[i]];
  }

  lemma NextSource(content: Tree, sources: seq<Source>, i: nat)
    requires i < |sources|
    ensures WithFiles(content, sources[..i + 1])
         == WithFiles(content, sources[..i])[[SOURCES] + sources[i].path := File(sources[i].bytes)]
  {
    assert sources[..i + 1] == sources[..i] + [sources[i]];
  }

  /** Sources of which none met another, or a directory, can lie in one tree. */
  lemma NoneMet(sources: seq<Source>, i: nat)
    requires i == |sources|
    requires forall j :: 0 <= j < i ==> !IsSourceDirectory(sources, sources[j].path)
    requires forall j, k :: 0 <= j < k < i ==> sources[j].path != sources[k].path
    ensures Compatible(sources)
  {
    hide IsSourceDirectory;
  }

  lemma Unmet(sources: seq<Source>, i: nat)
    requires i < |sources|
    ensures forall j :: 0 <= j < i ==> sources[j] in sources[..i]
    ensures Compatible(sources) ==> !IsSourceDirectory(sources, sources[i].path)
    ensures Compatible(sources) ==> !exists s <- sources[..i] :: s.path == sources[i].path
  {
    hide IsSourceDirectory;
    forall j | 0 <= j < i ensures sources[j] in sources[..i] { assert sources[..i][j] == sources[j]; }
    assert sources[i] in sources;
  }

  /** When its turn comes, a directory is not there yet, and the one that holds it is. */
  lemma DirectoryReady(sources: seq<Source>, directories: seq<Path>, i: nat, content: Tree)
    requires AllPortable(sources) && i < |directories|
    requires SortedByText(directories) && forall d :: d in directories <==> IsSourceDirectory(sources, d)
    requires DirAt(content, [SOURCES]) && forall r <- content :: r == [] || r == [MANIFEST] || r == [SOURCES]
    ensures var d, t := directories[i], WithDirectories(content, directories[..i]); var r := [SOURCES] + d;
            && d != [] && ValidName(r[|r| - 1]) && r !in t && DirAt(t, Parent(r))
            && (Parent(d) == [] || Parent(d) in directories[..i])
  {
    var d := directories[i];
    var r := [SOURCES] + d;
    assert d in directories;
    var s :| s in sources && d < s.path;
    assert d[|d| - 1] in s.path;
    assert Parent(r) == [SOURCES] + Parent(d) && r[1..] == d;
    WithDirectoriesAt(content, directories[..i], r);
    WithDirectoriesAt(content, directories[..i], Parent(r));
    if |d| > 1 { ParentsFirst(sources, directories, i); }
    forall x <- directories[..i] ensures r != [SOURCES] + x {
      assert ([SOURCES] + x)[1..] == x;
      NotYet(directories, i, x);
    }
  }

  lemma NotYet(directories: seq<Path>, i: nat, x: Path)
    requires SortedByText(directories) && i < |directories| && x in directories[..i]
    ensures x != directories[i]
  {
    PrecedesIrreflexive(Joined(directories[i]));
  }

  /** The first sources are written and the next one fits. */
  lemma SourceReady(sources: seq<Source>, directories: seq<Path>, i: nat, content: Tree)
    requires AllPortable(sources) && i < |sources|
    requires forall d :: d in directories <==> IsSourceDirectory(sources, d)
    requires DirAt(content, [SOURCES]) && forall r <- content :: r == [] || r == [MANIFEST] || r == [SOURCES]
    ensures sources[i].path != []
    ensures var r := [SOURCES] + sources[i].path;
            var t := WithFiles(WithDirectories(content, directories), sources[..i]);
            && r != [] && ValidName(r[|r| - 1])
            && (r in t <==> sources[i].path in directories || exists s <- sources[..i] :: s.path == sources[i].path)
            && (Compatible(sources) ==> DirAt(t, Parent(r)))
            && (Parent(sources[i].path) == [] || Parent(sources[i].path) in directories)
  {
    var path := sources[i].path;
    var r := [SOURCES] + path;
    assert sources[i] in sources && path[|path| - 1] in path;
    assert Parent(r) == [SOURCES] + Parent(path) && r[1..] == path;
    if Parent(path) != [] { assert IsSourceDirectory(sources, Parent(path)); }
    var t := WithDirectories(content, directories);
    WithDirectoriesAt(content, directories, r);
    WithDirectoriesAt(content, directories, Parent(r));
    WithFilesAt(t, sources[..i], r);
    WithFilesAt(t, sources[..i], Parent(r));
    forall x <- directories | r == [SOURCES] + x ensures x == path { assert ([SOURCES] + x)[1..] == x; }
    forall s <- sources[..i] | r == [SOURCES] + s.path ensures s.path == path {
      assert ([SOURCES] + s.path)[1..] == s.path;
    }
    if Compatible(sources) {
      forall s <- sources[..i] ensures Parent(r) != [SOURCES] + s.path {
        assert ([SOURCES] + s.path)[1..] == s.path && s in sources;
      }
    }
  }

  /** Every source at its path; none replaces anything. */
  method WriteSources(disk: Disk, staging: Name, sources: seq<Source>, directories: seq<Path>, opened_: set<Path>,
                      ghost base: Tree, ghost content: Tree)
    returns (ok: bool, ghost after: Tree)
    requires AllPortable(sources) && forall d :: d in directories <==> IsSourceDirectory(sources, d)
    requires DirAt(content, [SOURCES]) && forall r <- content :: r == [] || r == [MANIFEST] || r == [SOURCES]
    requires Staged(disk.tree, base, staging, WithDirectories(content, directories))
    requires forall d :: d in opened_ <==> d in directories
    modifies disk
    ensures old(disk.calls) <= disk.calls && Staged(disk.tree, base, staging, after)
    ensures ok ==> disk.Calm(old(disk.calls), disk.calls) && Compatible(sources)
    ensures ok ==> after == WithFiles(WithDirectories(content, directories), sources)
    ensures disk.Calm(old(disk.calls), disk.calls) && Compatible(sources) ==> ok
  {
    hide Staged, WithDirectories, WithFiles, IsSourceDirectory, AllPortable, ValidName, Compatible;
    ghost var start := WithDirectories(content, directories);
    after := start;
    assert WithFiles(start, sources[..0]) == start by { FirstSource(start, sources); }
    for i := 0 to |sources|
      invariant old(disk.calls) <= disk.calls && Staged(disk.tree, base, staging, after)
      invariant disk.Calm(old(disk.calls), disk.calls) && after == WithFiles(start, sources[..i])
      invariant forall j :: 0 <= j < i ==> !IsSourceDirectory(sources, sources[j].path)
      invariant forall j, k :: 0 <= j < k < i ==> sources[j].path != sources[k].path
    {
      var path := sources[i].path;
      SourceReady(sources, directories, i, content);
      Unmet(sources, i);
      assert Parent(path) == [] || Parent(path) in opened_;
      ok, after := WriteStaged(disk, staging, [SOURCES] + path, sources[i].bytes, base, after);
      if !ok {
        return false, after;
      }
      NextSource(start, sources, i);
    }
    NoneMet(sources, |sources|);
    assert sources[..|sources|] == sources;
    return true, after;
  }

  lemma FirstSource(content: Tree, sources: seq<Source>)
    ensures WithFiles(content, sources[..0]) == content
  {}

  // ---------- the whole write ----------

  /** What has been written in full is a bundle. */
  lemma WrittenIsBundle(manifest: Bytes, sources: seq<Source>, directories: seq<Path>)
    requires AllPortable(sources) && Compatible(sources)
    requires forall d :: d in directories <==> IsSourceDirectory(sources, d)
    ensures IsBundle(WithFiles(WithDirectories(Empty(manifest), directories), sources), manifest, sources)
  {
    hide WithDirectories, WithFiles, IsSourceDirectory;
    var t := WithDirectories(Empty(manifest), directories);
    var u := WithFiles(t, sources);
    forall r ensures r in u <==> || r == [] || r == [MANIFEST] || r == [SOURCES]
                                 || (r != [] && r[0] == SOURCES
                                     && (IsSourceDirectory(sources, r[1..])
                                         || exists s <- sources :: r[1..] == s.path))
    {
      WithDirectoriesAt(Empty(manifest), directories, r);
      WithFilesAt(t, sources, r);
      BelowSources(sources, directories, r);
    }
    forall r | r == [] || r == [MANIFEST] || r == [SOURCES] ensures r in u && u[r] == Empty(manifest)[r] {
      WithDirectoriesAt(Empty(manifest), directories, r);
      WithFilesAt(t, sources, r);
      NotBelowSources(sources, directories, r);
    }
    forall s | s in sources ensures u[[SOURCES] + s.path] == File(s.bytes) {
      var i :| 0 <= i < |sources| && sources[i] == s;
      FileWritten(t, sources, i);
    }
    forall d | IsSourceDirectory(sources, d) ensures [SOURCES] + d in u && u[[SOURCES] + d] == Dir {
      WithDirectoriesAt(Empty(manifest), directories, [SOURCES] + d);
      WithFilesAt(t, sources, [SOURCES] + d);
      assert d in directories;
      forall s <- sources ensures [SOURCES] + d != [SOURCES] + s.path {
        assert ([SOURCES] + d)[1..] == d && ([SOURCES] + s.path)[1..] == s.path;
      }
    }
  }

  lemma BelowSources(sources: seq<Source>, directories: seq<Path>, r: Path)
    ensures (exists d <- directories :: r == [SOURCES] + d) <==> r != [] && r[0] == SOURCES && r[1..] in directories
    ensures (exists s <- sources :: r == [SOURCES] + s.path) <==>
        r != [] && r[0] == SOURCES && exists s <- sources :: r[1..] == s.path
  {
    if r != [] && r[0] == SOURCES { assert r == [SOURCES] + r[1..]; }
    forall s <- sources ensures ([SOURCES] + s.path)[1..] == s.path {}
    forall d <- directories ensures ([SOURCES] + d)[1..] == d {}
  }

  lemma NotBelowSources(sources: seq<Source>, directories: seq<Path>, r: Path)
    requires AllPortable(sources) && forall d :: d in directories <==> IsSourceDirectory(sources, d)
    requires r == [] || r == [MANIFEST] || r == [SOURCES]
    ensures !(exists d <- directories :: r == [SOURCES] + d) && !exists s <- sources :: r == [SOURCES] + s.path
  {
    forall d <- directories ensures r != [SOURCES] + d {
      assert d != [] && ([SOURCES] + d)[0] == SOURCES && |[SOURCES] + d| > 1;
    }
    forall s <- sources ensures r != [SOURCES] + s.path { assert Portable(s.path) && |[SOURCES] + s.path| > 1; }
  }

  /** Sync what was written: changes nothing, may fail. */
  method SyncStagingTree(disk: Disk, directories: seq<Path>) returns (ok: bool)
    modifies disk`calls
    ensures old(disk.calls) <= disk.calls && (ok <==> disk.Calm(old(disk.calls), disk.calls))
  {
    for i := |directories| downto 0
      invariant old(disk.calls) <= disk.calls && disk.Calm(old(disk.calls), disk.calls)
    {
      ok := disk.Touch();
      if !ok {
        return false;
      }
    }
    ok := disk.Touch();
    if !ok {
      return false;
    }
    ok := disk.Touch();
  }

  /** Fill the staging directory; on a failure, say in which phase. */
  method FillStaging(disk: Disk, staging: Name, manifest: Bytes, sources: seq<Source>, ghost base: Tree)
    returns (failure: Option<Phase>, ghost content: Tree)
    requires AllPortable(sources) && Staged(disk.tree, base, staging, map[[] := Dir])
    modifies disk
    ensures old(disk.calls) <= disk.calls && Staged(disk.tree, base, staging, content)
    ensures failure.None? <==> disk.Calm(old(disk.calls), disk.calls) && Compatible(sources)
    ensures failure.None? ==> IsBundle(content, manifest, sources)
    ensures failure.Some? ==> failure.value in {ManifestWrite, SourceWrite, Flush}
  {
    hide Staged, WithDirectories, WithFiles, IsSourceDirectory, AllPortable, Compatible, IsBundle;
    content := map[[] := Dir];
    NamesAreValid();
    var ok: bool;
    ok, content := WriteStaged(disk, staging, [MANIFEST], manifest, base, content);
    if !ok {
      return Some(ManifestWrite), content;
    }
    ok, content := CreateStaged(disk, staging, [SOURCES], base, content);
    if !ok {
      return Some(SourceWrite), content;
    }
    assert content == Empty(manifest);
    var directories := SourceDirectoryPaths(sources);
    var opened_: set<Path>;
    ok, opened_, content := MakeDirectories(disk, staging, sources, directories, base, content);
    if !ok {
      return Some(SourceWrite), content;
    }
    ok, content := WriteSources(disk, staging, sources, directories, opened_, base, Empty(manifest));
    if !ok {
      return Some(SourceWrite), content;
    }
    WrittenIsBundle(manifest, sources, directories);
    ok := SyncStagingTree(disk, directories);
    if !ok {
      return Some(Flush), content;
    }
    return None, content;
  }

  lemma NamesAreValid()
    ensures ValidName(MANIFEST) && ValidName(SOURCES) && MANIFEST != SOURCES
    ensures Parent([MANIFEST]) == [] && Parent([SOURCES]) == []
  {}

  /** What an outcome promises about the destination. */
  ghost predicate Delivered(outcome: Outcome, before: Tree, after: Tree, staging: Name, target: Name, manifest: Bytes,
                            sources: seq<Source>) {
    match outcome
    case PrePromotionFailure(phase) => if phase == Cleanup then SameOutside(before, after, staging) else after == before
    case _ =>
      && [target] !in before
      && exists content :: IsBundle(content, manifest, sources) && after == Placed(before, target, content)
  }

  method FinishPrePromotionFailure(disk: Disk, staging: Name, phase: Phase, ghost base: Tree, ghost content: Tree)
    returns (outcome: Outcome)
    requires Staged(disk.tree, base, staging, content) && phase != Cleanup
    modifies disk
    ensures old(disk.calls) <= disk.calls
    ensures outcome == PrePromotionFailure(phase) ==> disk.tree == base
    ensures outcome == PrePromotionFailure(phase)
            || (outcome == PrePromotionFailure(Cleanup) && SameOutside(base, disk.tree, staging))
    ensures disk.Calm(old(disk.calls), disk.calls) ==> outcome == PrePromotionFailure(phase)
  {
    StagedOutside(disk.tree, base, staging, content);
    var ok := CleanupOwnedStaging(disk, staging, base);
    outcome := PrePromotionFailure(if ok then phase else Cleanup);
  }

  /** The atomic write of a bundle. Whatever calls fail: a promoted bundle is there in
      full, beside all that was there; a failure before that leaves the destination as it
      was, or, when cleaning up fails too, as it was apart from the staging name. It is
      promoted and synced exactly when no call failed, both names are free and valid, and
      the sources can lie in one tree. */
  method WriteAtomicBundle(disk: Disk, staging: Name, target: Name, manifest: Bytes, sources: seq<Source>)
    returns (outcome: Outcome)
    requires Rooted(disk.tree) && AllPortable(sources)
    modifies disk
    ensures Delivered(outcome, old(disk.tree), disk.tree, staging, target, manifest, sources)
    ensures outcome.PromotedAndSynced? <==>
      && disk.Calm(old(disk.calls), disk.calls) && StagingNameOk(staging) && ValidName(target) && Compatible(sources)
      && staging != target && [staging] !in old(disk.tree) && [target] !in old(disk.tree)
  {
    hide Staged, IsBundle, Compatible, Placed, Rooted, StagingNameOk, ValidName, AllPortable, SameOutside;
    ghost var base := disk.tree;
    if !StagingNameOk(staging) {
      return PrePromotionFailure(StagingCreate);
    }
    if !ValidName(target) {
      return PrePromotionFailure(Promotion);
    }
    var ok := disk.Mkdir([staging]);
    if !ok {
      return PrePromotionFailure(StagingCreate);
    }
    NewStaging(base, disk.tree, staging);
    ok := disk.Touch();
    if !ok {
      StagedOutside(disk.tree, base, staging, map[[] := Dir]);
      return PrePromotionFailure(Cleanup);
    }
    var failure, content := FillStaging(disk, staging, manifest, sources, base);
    if failure.Some? {
      outcome := FinishPrePromotionFailure(disk, staging, failure.value, base, content);
      return;
    }
    ok := PromoteNoReplace(disk, staging, target, base, content);
    if !ok {
      outcome := FinishPrePromotionFailure(disk, staging, Promotion, base, content);
      return;
    }
    ok := disk.Touch();
    outcome := if ok then PromotedAndSynced else PromotedButDurabilityUncertain;
  }

  lemma NewStaging(base: Tree, t: Tree, staging: Name)
    requires Rooted(base) && [staging] !in base && t == base[[staging] := Dir]
    ensures Staged(t, base, staging, map[[] := Dir])
  {
    hide Prefixed;
    var q := Prefixed(staging, map[[] := Dir]);
    assert [staging] + [] == [staging];
    forall p ensures p in q <==> p == [staging] {
      PrefixedAt(staging, map[[] := Dir], p);
      if p in q { assert p == [staging] + p[1..]; }
    }
    assert q == map[[staging] := Dir];
    assert t == base + q;
    assert Parent([staging]) == [];
  }

  lemma TargetFree(t: Tree, base: Tree, staging: Name, target: Name, content: Tree)
    requires Staged(t, base, staging, content)
    ensures [target] in t <==> target == staging || [target] in base
  {
    hide Placed, Rooted;
    PlacedAt(base, staging, content, [target]);
    assert [target][1..] == [];
    assert [staging] <= [target] <==> [staging][0] == [target][0];
  }

  method PromoteNoReplace(disk: Disk, staging: Name, target: Name, ghost base: Tree, ghost content: Tree)
    returns (ok: bool)
    requires Staged(disk.tree, base, staging, content)
    modifies disk
    ensures old(disk.calls) <= disk.calls
    ensures ok <==> disk.Calm(old(disk.calls), disk.calls) && staging != target && [target] !in base
    ensures if ok then disk.tree == Placed(base, target, content) else disk.tree == old(disk.tree)
  {
    hide Placed, Rooted, Renamed, SameOutside;
    StagedOutside(disk.tree, base, staging, content);
    TargetFree(disk.tree, base, staging, target, content);
    var found := disk.Stat([staging]);
    if !found {
      return false;
    }
    ok := disk.RenameNew(staging, target);
    if ok { RenamePlaced(base, staging, target, content); }
  }
}
